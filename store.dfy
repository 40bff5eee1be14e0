/**
 * The response store: the application's single mutable `state` object
 * (`scores`, `committed`, `role`) and the browser storage slot it is saved to.
 */
module Store {

  import opened Wrappers
  import opened Checklist
  import opened Responses

  /** The JSON object `{scores, committed, role}`; a missing `role` is `None`. */
  datatype Snapshot = Snapshot(scores: map<string, Entry>, committed: map<string, bool>, role: Option<string>)

  /**
   * What the storage slot under the key "chamaiState" holds, as `loadState`
   * sees it: nothing (or the empty string); text that cannot be read or parsed;
   * JSON that is not an object (a number, a string, `null`); or a state object.
   */
  datatype Stored = Absent | Malformed | NotAnObject | Parsed(snapshot: Snapshot)

  /** Sets `committed[sec.id] = true` for each section, in order. */
  function CommitSections(committed: map<string, bool>, sections: seq<Section>): (r: map<string, bool>)
    ensures committed.Keys <= r.Keys
    ensures forall k :: 0 <= k < |sections| ==> sections[k].id in r && r[sections[k].id]
  {
    if sections == [] then committed
    else CommitSections(committed, sections[..|sections| - 1])[sections[|sections| - 1].id := true]
  }

  /** Committing marks exactly the definition's sections and keeps every other flag. */
  lemma {:induction false} CommitSectionsMarksEverySection(committed: map<string, bool>, sections: seq<Section>, id: string)
    ensures id in CommitSections(committed, sections)
        <==> id in committed || exists k :: 0 <= k < |sections| && sections[k].id == id
    ensures (exists k :: 0 <= k < |sections| && sections[k].id == id) ==> CommitSections(committed, sections)[id]
    ensures (forall k :: 0 <= k < |sections| ==> sections[k].id != id) && id in committed
        ==> CommitSections(committed, sections)[id] == committed[id]
  {
    if sections != [] {
      var init := sections[..|sections| - 1];
      CommitSectionsMarksEverySection(committed, init, id);
      assert forall k :: 0 <= k < |init| ==> init[k] == sections[k];
      if id != sections[|sections| - 1].id {
        assert (exists k :: 0 <= k < |sections| && sections[k].id == id)
           ==> (exists k :: 0 <= k < |init| && init[k].id == id);
      }
    }
  }

  class ResponseStore {
    var scores: map<string, Entry>
    var committed: map<string, bool>
    var role: Option<string>
    /** The browser storage slot the state is saved to and loaded from. */
    var storage: Stored

    /** The shape every operation after `LoadState` keeps: migrated entries, a normalised role. */
    ghost predicate Valid()
      reads this
    {
      !HasLegacy(scores) && (role == Some(ROLE_AUTHOR) || role == Some(ROLE_REVIEWER))
    }

    /** The object `saveState` serialises. */
    function Current(): Snapshot
      reads this
    {
      Snapshot(scores, committed, role)
    }

    /** The initial in-memory state, before anything is loaded. */
    constructor (stored: Stored)
      ensures scores == map[] && committed == map[] && role == Some(ROLE_REVIEWER)
      ensures storage == stored
      ensures Valid()
    {
      scores := map[];
      committed := map[];
      role := Some(ROLE_REVIEWER);
      storage := stored;
    }

    /** `saveState`: the storage slot now holds the whole current state. */
    method SaveState()
      modifies this`storage
      ensures storage == Parsed(Current())
    {
      storage := Parsed(Snapshot(scores, committed, role));
    }

    /**
     * `migrateLegacyState`: upgrades every legacy entry, sets a missing or
     * empty role to "reviewer", and saves only if one of the two changed
     * something. On a store with nothing to upgrade it changes nothing.
     */
    method MigrateLegacyState()
      modifies this`scores, this`role, this`storage
      ensures scores == MigratedScores(old(scores))
      ensures role == if Truthy(old(role)) then old(role) else Some(ROLE_REVIEWER)
      ensures Truthy(role) && !HasLegacy(scores)
      ensures storage == if HasLegacy(old(scores)) || !Truthy(old(role)) then Parsed(Current()) else old(storage)
      ensures !HasLegacy(old(scores)) && Truthy(old(role)) ==> unchanged(this)
    {
      var changed := false;
      var pending := scores.Keys;
      while pending != {}
        invariant pending <= old(scores).Keys
        invariant scores.Keys == old(scores).Keys
        invariant forall code :: code in scores ==>
          scores[code] == if code in pending then old(scores)[code] else Migrated(old(scores)[code])
        invariant changed <==> exists code :: code in old(scores) && code !in pending && old(scores)[code].Legacy?
        invariant role == old(role) && storage == old(storage)
        decreases pending
      {
        var code :| code in pending;
        var val := scores[code];
        if val.Legacy? {
          scores := scores[code := Record(None, Some(val.choice))];
          changed := true;
        }
        pending := pending - {code};
      }
      assert changed <==> HasLegacy(old(scores));
      assert scores == MigratedScores(old(scores));
      MigrationIdempotent(old(scores));
      MigrationOfMigratedIsIdentity(old(scores));
      if !Truthy(role) {
        role := Some(ROLE_REVIEWER);
        changed := true;
      }
      if changed {
        SaveState();
      }
    }

    /**
     * `loadState`: takes the stored object if there is one, migrates, forces
     * the role to "reviewer" and saves. When reading or parsing throws, the
     * handler skips all of that and the state stays as it was.
     */
    method LoadState()
      modifies this
      ensures old(storage).Malformed? ==> unchanged(this)
      ensures !old(storage).Malformed? ==>
        var source := if old(storage).Parsed? then old(storage).snapshot else old(Current());
        && scores == MigratedScores(source.scores)
        && committed == source.committed
        && role == Some(ROLE_REVIEWER)
        && storage == Parsed(Current())
        && Valid()
    {
      if storage.Malformed? {
        return;
      }
      if storage.Parsed? {
        var s := storage.snapshot;
        scores, committed, role := s.scores, s.committed, s.role;
      }
      MigrateLegacyState();
      role := Some(ROLE_REVIEWER);
      SaveState();
    }

    /** `clearState`: the default empty state, and the stored copy removed. */
    method ClearState()
      modifies this
      ensures scores == map[] && committed == map[] && role == Some(ROLE_REVIEWER)
      ensures storage == Absent
      ensures Valid()
    {
      scores, committed, role := map[], map[], Some(ROLE_REVIEWER);
      storage := Absent;
    }

    /** `getCurrentRole`: anything stored other than "author" reads as the reviewer. */
    function CurrentRole(): (r: Role)
      reads this
      ensures r == Author <==> role == Some(ROLE_AUTHOR)
    {
      RoleOf(role)
    }

    /** `getOptionsForCurrentRole`. */
    function OptionsForCurrentRole(): (options: seq<string>)
      reads this
      ensures options == AUTHOR_OPTIONS <==> role == Some(ROLE_AUTHOR)
      ensures options == REVIEWER_OPTIONS <==> role != Some(ROLE_AUTHOR)
    {
      OptionsFor(CurrentRole())
    }

    /** `setRole`, its state part: the normalised role is stored and saved; no response changes. */
    method SetRole(newRole: string)
      modifies this`role, this`storage
      ensures role == Some(if newRole == ROLE_AUTHOR then ROLE_AUTHOR else ROLE_REVIEWER)
      ensures CurrentRole() == RoleOf(Some(newRole))
      ensures storage == Parsed(Current())
      ensures old(Valid()) ==> Valid()
    {
      role := Some(RoleName(RoleOf(Some(newRole))));
      SaveState();
    }

    /**
     * The choice-button click handler for item `code`, where `r` is the role
     * the buttons were built for: only that role's field of the item's record
     * changes, and the state is saved.
     */
    method RecordChoice(code: string, r: Role, choice: string)
      modifies this`scores, this`storage
      ensures scores == old(scores)[code := WithChoice(Lookup(old(scores), code), r, choice)]
      ensures ChoiceFor(scores, code, r) == OrNull(Some(choice))
      ensures ChoiceFor(scores, code, OtherRole(r)) == ChoiceFor(old(scores), code, OtherRole(r))
      ensures forall other :: other != code ==> Lookup(scores, other) == Lookup(old(scores), other)
      ensures storage == Parsed(Current())
      ensures old(Valid()) ==> Valid()
    {
      var prev := Lookup(scores, code);
      var entry: Entry;
      if prev.None? || prev.value.Legacy? {
        entry := Record(None, None);
        if prev.Some? {
          entry := entry.(reviewer := Some(prev.value.choice));
        }
      } else {
        entry := prev.value;
      }
      if r == Author {
        entry := entry.(author := Some(choice));
      } else {
        entry := entry.(reviewer := Some(choice));
      }
      assert entry == WithChoice(prev, r, choice);
      forall other | other != code
        ensures Lookup(scores[code := entry], other) == Lookup(scores, other)
      {
        RecordingSetsOnlyOneField(scores, code, r, choice, other);
      }
      RecordingSetsOnlyOneField(scores, code, r, choice, code);
      scores := scores[code := entry];
      SaveState();
    }

    /**
     * The commit-all handler: every section of the definition is marked
     * committed and the state saved. Without a loaded definition the handler
     * throws before it changes anything.
     */
    method CommitAll(data: Option<Definition>)
      modifies this`committed, this`storage
      ensures data.None? ==> unchanged(this)
      ensures data.Some? ==> committed == CommitSections(old(committed), data.value.sections)
      ensures data.Some? ==> storage == Parsed(Current())
      ensures old(Valid()) ==> Valid()
    {
      if data.None? {
        return;
      }
      var sections := data.value.sections;
      var i := 0;
      while i < |sections|
        invariant 0 <= i <= |sections|
        invariant committed == CommitSections(old(committed), sections[..i])
      {
        assert sections[..i + 1][..i] == sections[..i];
        committed := committed[sections[i].id := true];
        i := i + 1;
      }
      assert sections[..i] == sections;
      SaveState();
    }

    /**
     * A page reload of a store in use: what was saved is loaded back with the
     * same responses and commit flags, and the role reset to "reviewer".
     */
    method Reload()
      requires Valid()
      modifies this
      ensures scores == old(scores) && committed == old(committed)
      ensures role == Some(ROLE_REVIEWER) && Valid()
      ensures storage == Parsed(Current())
    {
      SaveState();
      MigrationOfMigratedIsIdentity(scores);
      LoadState();
    }
  }
}
