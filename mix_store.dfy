/** lib/state/useMixStore.ts: the library of saved mixes and the mix being
    played. Every action is a function from the old store state to the new
    one; the clock reading `updateMix` takes is a parameter. */
module MixStore {
  import opened Types
  import opened Lists
  import opened Wrappers

  /** The store's data: the saved mixes in the order they were added, and the
      identifier of the current mix (`null` is `None`). */
  datatype MixState = MixState(mixes: seq<Mix>, currentMixId: Option<string>)

  /** `Partial<Mix>`: the fields an update sets; `None` leaves a field as it is. */
  datatype MixUpdate = MixUpdate(
    id: Option<string>,
    name: Option<string>,
    layers: Option<seq<MixLayer>>,
    createdAt: Option<string>,
    updatedAt: Option<string>,
    tags: Option<seq<string>>)

  /** `{ ...mix, ...updates, updatedAt: now }`: each field the update sets,
      otherwise the mix's, except that `updatedAt` is always the clock reading
      (an `updatedAt` in the update is overridden). */
  function Merge(mix: Mix, u: MixUpdate, now: string): (r: Mix)
    ensures r.id == if u.id.Some? then u.id.value else mix.id
    ensures r.name == if u.name.Some? then u.name.value else mix.name
    ensures r.layers == if u.layers.Some? then u.layers.value else mix.layers
    ensures r.createdAt == if u.createdAt.Some? then u.createdAt.value else mix.createdAt
    ensures r.tags == if u.tags.Some? then u.tags.value else mix.tags
    ensures r.updatedAt == now
  {
    Mix(u.id.GetOr(mix.id), u.name.GetOr(mix.name), u.layers.GetOr(mix.layers),
        u.createdAt.GetOr(mix.createdAt), now, u.tags.GetOr(mix.tags))
  }

  /** The store as created (useMixStore.ts:20-21). */
  function Initial(): (s: MixState)
    ensures s.mixes == [] && s.currentMixId.None?
  {
    MixState([], None)
  }

  /** `addMix(mix)` (useMixStore.ts:23-27): appended at the end. */
  function AddMix(s: MixState, mix: Mix): (r: MixState)
    ensures |r.mixes| == |s.mixes| + 1
    ensures r.mixes[..|s.mixes|] == s.mixes && r.mixes[|s.mixes|] == mix
    ensures r.currentMixId == s.currentMixId
  {
    s.(mixes := s.mixes + [mix])
  }

  /** The `mixes.map` of `updateMix`. */
  function UpdateWhere(mixes: seq<Mix>, id: string, u: MixUpdate, now: string): (r: seq<Mix>)
    ensures |r| == |mixes|
    ensures forall i :: 0 <= i < |mixes| && mixes[i].id == id ==> r[i] == Merge(mixes[i], u, now)
    ensures forall i :: 0 <= i < |mixes| && mixes[i].id != id ==> r[i] == mixes[i]
  {
    if mixes == [] then []
    else [if mixes[0].id == id then Merge(mixes[0], u, now) else mixes[0]] + UpdateWhere(mixes[1..], id, u, now)
  }

  /** `updateMix(id, updates)` (useMixStore.ts:29-37): every mix with that
      identifier takes the update and the new `updatedAt`; the others and the
      current mix stay. */
  function UpdateMix(s: MixState, id: string, u: MixUpdate, now: string): (r: MixState)
    ensures r.mixes == UpdateWhere(s.mixes, id, u, now)
    ensures r.currentMixId == s.currentMixId
  {
    s.(mixes := UpdateWhere(s.mixes, id, u, now))
  }

  /** Whether a mix is not the one with identifier `id`. */
  function NotId(id: string): Mix -> bool
  {
    (m: Mix) => m.id != id
  }

  /** `deleteMix(id)` (useMixStore.ts:39-44): every mix with that identifier
      goes, the others stay in order, and the current mix is cleared exactly
      when it was that one. */
  function DeleteMix(s: MixState, id: string): (r: MixState)
    ensures r.mixes == Filter(s.mixes, NotId(id))
    ensures forall i :: 0 <= i < |r.mixes| ==> r.mixes[i].id != id
    ensures forall i :: 0 <= i < |s.mixes| && s.mixes[i].id != id ==> s.mixes[i] in r.mixes
    ensures r.currentMixId.None? <==> (s.currentMixId.None? || s.currentMixId.value == id)
    ensures r.currentMixId.Some? ==> r.currentMixId == s.currentMixId
  {
    MixState(Filter(s.mixes, NotId(id)), if s.currentMixId == Some(id) then None else s.currentMixId)
  }

  /** `getMixById(id)` (useMixStore.ts:46-48): the first mix with that
      identifier, if any. */
  function GetMixById(s: MixState, id: string): (r: Option<Mix>)
    ensures r.None? <==> forall i :: 0 <= i < |s.mixes| ==> s.mixes[i].id != id
    ensures r.Some? ==> exists i :: 0 <= i < |s.mixes| && s.mixes[i] == r.value && r.value.id == id
                                    && forall j :: 0 <= j < i ==> s.mixes[j].id != id
  {
    Find(s.mixes, id)
  }

  /** The `find` over `mixes`. */
  function Find(mixes: seq<Mix>, id: string): (r: Option<Mix>)
    ensures r.None? <==> forall i :: 0 <= i < |mixes| ==> mixes[i].id != id
    ensures r.Some? ==> exists i :: 0 <= i < |mixes| && mixes[i] == r.value && r.value.id == id
                                    && forall j :: 0 <= j < i ==> mixes[j].id != id
  {
    if mixes == [] then None
    else if mixes[0].id == id then Some(mixes[0])
    else Find(mixes[1..], id)
  }

  /** `setCurrentMix(id)` (useMixStore.ts:50-52): no check that a mix with
      that identifier exists. */
  function SetCurrentMix(s: MixState, id: Option<string>): (r: MixState)
    ensures r.currentMixId == id && r.mixes == s.mixes
  {
    s.(currentMixId := id)
  }

  /** After `deleteMix(id)` no mix with that identifier can be found. */
  lemma DeletedNotFound(s: MixState, id: string)
    ensures GetMixById(DeleteMix(s, id), id).None?
  {
  }

  /** A mix added under a fresh identifier is found by it. */
  lemma {:induction false} AddedFound(s: MixState, mix: Mix)
    requires forall i :: 0 <= i < |s.mixes| ==> s.mixes[i].id != mix.id
    ensures GetMixById(AddMix(s, mix), mix.id) == Some(mix)
  {
    var found := GetMixById(AddMix(s, mix), mix.id);
    var mixes := AddMix(s, mix).mixes;
    assert mixes[|s.mixes|] == mix;
    if found.Some? {
      var i :| 0 <= i < |mixes| && mixes[i] == found.value && found.value.id == mix.id;
      assert i == |s.mixes|;
    }
  }

  /** Deleting a mix just added under a fresh identifier restores the list. */
  lemma {:induction false} DeleteUndoesAdd(s: MixState, mix: Mix)
    requires forall i :: 0 <= i < |s.mixes| ==> s.mixes[i].id != mix.id
    ensures DeleteMix(AddMix(s, mix), mix.id).mixes == s.mixes
  {
    FilterAppend(s.mixes, [mix], NotId(mix.id));
    FilterKeepsAll(s.mixes, NotId(mix.id));
    assert Filter([mix], NotId(mix.id)) == [];
  }

  /** Deleting the same identifier twice is deleting it once. */
  lemma DeleteTwice(s: MixState, id: string)
    ensures DeleteMix(DeleteMix(s, id), id) == DeleteMix(s, id)
  {
    FilterIdempotent(s.mixes, NotId(id));
  }

  /** Updating a mix does not change which identifier `getMixById` finds
      first, when the update leaves identifiers alone; what it finds is the
      merged mix. */
  lemma UpdateThenFind(s: MixState, id: string, u: MixUpdate, now: string)
    requires u.id.None?
    ensures var found := GetMixById(s, id);
      found.Some? ==> GetMixById(UpdateMix(s, id, u, now), id) == Some(Merge(found.value, u, now))
  {
    FindAfterUpdate(s.mixes, id, u, now);
  }

  lemma {:induction false} FindAfterUpdate(mixes: seq<Mix>, id: string, u: MixUpdate, now: string)
    requires u.id.None?
    ensures var found := Find(mixes, id);
      found.Some? ==> Find(UpdateWhere(mixes, id, u, now), id) == Some(Merge(found.value, u, now))
  {
    if mixes != [] && mixes[0].id != id {
      var updated := UpdateWhere(mixes, id, u, now);
      assert updated[1..] == UpdateWhere(mixes[1..], id, u, now);
      FindAfterUpdate(mixes[1..], id, u, now);
    }
  }
}
