/** `ServerProfile` and the list operations both front ends perform on it. */
module Profiles {
  import opened Common
  import Text

  /** A Kotlin `ServerProfile`; `bass` and `treble` are the Kotlin `Float`s, only stored. */
  datatype Profile = Profile(
    id: string,
    name: string,
    ipAddress: string,
    port: Int32,
    bitrate: Int32,
    sampleRate: Int32,
    channelConfig: string,
    bass: real,
    treble: real)

  /**
   * The kotlinx JSON codec, left opaque: encoding always succeeds, decoding may
   * fail (the exception the source catches is `None`).
   */
  datatype Codec = Codec(encode: seq<Profile> -> string, decode: string -> Option<seq<Profile>>)

  const DEFAULT_PORT: Int32 := 8888
  const DEFAULT_BITRATE: Int32 := 128000
  const DEFAULT_SAMPLE_RATE: Int32 := 44100
  const DEFAULT_CHANNEL_CONFIG := "Stereo"

  /** The profile `createDefaultProfile` builds; `id` is the fresh UUID text. */
  function DefaultProfile(id: string): Profile {
    Profile(id, "Default", "192.168.1.100", DEFAULT_PORT, DEFAULT_BITRATE, DEFAULT_SAMPLE_RATE,
            DEFAULT_CHANNEL_CONFIG, 0.0, 0.0)
  }

  /** Ids are unique in the list. */
  ghost predicate NoDuplicateIds(ps: seq<Profile>) {
    forall i, j :: 0 <= i < j < |ps| ==> ps[i].id != ps[j].id
  }

  predicate HasId(ps: seq<Profile>, id: string) {
    exists i :: 0 <= i < |ps| && ps[i].id == id
  }

  /** Kotlin's `firstOrNull()`. */
  function FirstOrNull(ps: seq<Profile>): Option<Profile> {
    if ps == [] then None else Some(ps[0])
  }

  /** Kotlin's `find { it.id == id }`: an element carrying `id`, null when there is none. */
  function Find(ps: seq<Profile>, id: string): (r: Option<Profile>)
    ensures r.Some? ==> r.value in ps && r.value.id == id
    ensures r.None? <==> !HasId(ps, id)
  {
    if ps == [] then None
    else if ps[0].id == id then Some(ps[0])
    else
      assert forall i :: 1 <= i < |ps| ==> ps[i] == ps[1..][i - 1];
      Find(ps[1..], id)
  }

  /** The element `Find` returns is the FIRST one carrying the id. */
  lemma {:induction false} FindIsFirst(ps: seq<Profile>, id: string, k: nat)
    requires k < |ps| && ps[k].id == id
    requires forall j :: 0 <= j < k ==> ps[j].id != id
    ensures Find(ps, id) == Some(ps[k])
  {
    if k > 0 {
      FindIsFirst(ps[1..], id, k - 1);
    }
  }

  /**
   * The selection after the list is replaced (`updateProfiles`): the
   * new version of the selected profile if its id is still present, otherwise
   * the first profile, otherwise nothing.
   */
  ghost function Reselect(newProfiles: seq<Profile>, current: Option<Profile>): (r: Option<Profile>)
    ensures r.None? <==> newProfiles == []
    ensures r.Some? ==> r.value in newProfiles
  {
    if current.Some? && Find(newProfiles, current.value.id).Some? then
      Find(newProfiles, current.value.id)
    else
      FirstOrNull(newProfiles)
  }

  /** A still-present selection moves to the first element with its id, i.e. the edited version. */
  lemma ReselectKeepsEdited(newProfiles: seq<Profile>, current: Profile, k: nat)
    requires k < |newProfiles| && newProfiles[k].id == current.id
    requires forall j :: 0 <= j < k ==> newProfiles[j].id != current.id
    ensures Reselect(newProfiles, Some(current)) == Some(newProfiles[k])
  {
    FindIsFirst(newProfiles, current.id, k);
  }

  /** A vanished or absent selection falls back to the first element, or to nothing. */
  lemma ReselectFallsBack(newProfiles: seq<Profile>, current: Option<Profile>)
    requires current.None? || !HasId(newProfiles, current.value.id)
    ensures Reselect(newProfiles, current) == if newProfiles == [] then None else Some(newProfiles[0])
  {
  }

  /** Replacing `[A(1), B(2)]` with `[B(2)]` while `A` is selected selects `B`; with `[]`, nothing. */
  lemma ReselectAfterDeletion(a: Profile, b: Profile)
    requires a.id != b.id
    ensures Reselect([b], Some(a)) == Some(b)
    ensures Reselect([], Some(a)) == None
  {
  }

  /** `map { p -> if (p.id == id) updated else p }` */
  function ReplaceById(ps: seq<Profile>, id: string, updated: Profile): (r: seq<Profile>)
    ensures |r| == |ps|
    ensures forall i :: 0 <= i < |ps| && ps[i].id != id ==> r[i] == ps[i]
    ensures forall i :: 0 <= i < |ps| && ps[i].id == id ==> r[i] == updated
  {
    seq(|ps|, i requires 0 <= i < |ps| => if ps[i].id == id then updated else ps[i])
  }

  /** An edit that keeps the id changes no position's id, so uniqueness of ids is kept. */
  lemma ReplaceKeepsIds(ps: seq<Profile>, updated: Profile)
    ensures forall i :: 0 <= i < |ps| ==> ReplaceById(ps, updated.id, updated)[i].id == ps[i].id
    ensures NoDuplicateIds(ps) ==> NoDuplicateIds(ReplaceById(ps, updated.id, updated))
    ensures NoDuplicateIds(ps) && HasId(ps, updated.id) ==> updated in ReplaceById(ps, updated.id, updated)
  {
  }

  /** `filter { p -> p.id != id }` */
  function DeleteById(ps: seq<Profile>, id: string): (r: seq<Profile>)
    ensures forall p :: p in r <==> p in ps && p.id != id
    ensures |r| <= |ps|
    ensures !HasId(ps, id) ==> r == ps
  {
    if ps == [] then []
    else
      assert forall i :: 1 <= i < |ps| ==> ps[i] == ps[1..][i - 1];
      assert ps == [ps[0]] + ps[1..];
      if ps[0].id == id then DeleteById(ps[1..], id)
      else [ps[0]] + DeleteById(ps[1..], id)
  }

  /** A one-element list loses its element exactly when the element carries the id. */
  lemma DeleteOne(p: Profile, id: string)
    ensures DeleteById([p], id) == if p.id == id then [] else [p]
  {
    assert [p][1..] == [];
  }

  /**
   * Deleting distributes over concatenation. With `DeleteOne` this pins the
   * result down element by element: the survivors keep their order and their
   * repeats, as `filter` does.
   */
  lemma {:induction false} DeleteAppend(a: seq<Profile>, b: seq<Profile>, id: string)
    ensures DeleteById(a + b, id) == DeleteById(a, id) + DeleteById(b, id)
  {
    if a == [] {
      assert a + b == b;
    } else {
      assert (a + b)[0] == a[0];
      assert (a + b)[1..] == a[1..] + b;
      DeleteAppend(a[1..], b, id);
    }
  }

  /** Deleting keeps ids unique and removes every profile with that id. */
  lemma {:induction false} DeleteKeepsNoDuplicates(ps: seq<Profile>, id: string)
    requires NoDuplicateIds(ps)
    ensures NoDuplicateIds(DeleteById(ps, id))
    ensures !HasId(DeleteById(ps, id), id)
  {
    if ps != [] {
      DeleteKeepsNoDuplicates(ps[1..], id);
      var rest := DeleteById(ps[1..], id);
      if ps[0].id != id {
        var r := [ps[0]] + rest;
        forall i, j | 0 <= i < j < |r| ensures r[i].id != r[j].id {
          if i == 0 {
            assert r[j] in rest;
            assert r[j] in ps[1..];
          }
        }
      }
    }
  }

  /** The profile the "add" button appends when the list has `size` elements. */
  function NewProfile(id: string, size: nat): Profile {
    Profile(id, "New Profile " + Text.IntToString(size + 1), "", DEFAULT_PORT, DEFAULT_BITRATE,
            DEFAULT_SAMPLE_RATE, DEFAULT_CHANNEL_CONFIG, 0.0, 0.0)
  }

  /** `editingProfiles + ServerProfile(name = "New Profile ${size + 1}", ...)` */
  function AppendNewProfile(ps: seq<Profile>, id: string): (r: seq<Profile>)
    ensures |r| == |ps| + 1 && r[..|ps|] == ps
    ensures r[|ps|] == Profile(id, "New Profile " + Text.IntToString(|ps| + 1), "", 8888, 128000, 44100,
                               "Stereo", 0.0, 0.0)
    ensures NoDuplicateIds(ps) && !HasId(ps, id) ==> NoDuplicateIds(r)
  {
    ps + [NewProfile(id, |ps|)]
  }
}
