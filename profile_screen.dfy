/**
 * The editing callbacks of the profile settings screen and its per-profile
 * editor. The screen keeps a working copy of the list (`editingProfiles`);
 * each callback maps that copy to its next value, and the edit callback also
 * says which broadcasts it sends. Adding and deleting are
 * `Profiles.AppendNewProfile` and `Profiles.DeleteById`.
 */
module ProfileScreen {
  import opened Common
  import opened Profiles
  import opened Messages
  import Text

  datatype ProfileChange = ProfileChange(profiles: seq<Profile>, sent: seq<Intent>)

  /**
   * `onProfileChange` of the row showing the profile with id `rowId`: the row is
   * replaced in place, and the new tone controls are broadcast only when that
   * row is the profile currently selected on the main screen.
   */
  function OnProfileChange(editing: seq<Profile>, rowId: string, currentProfileId: Option<string>,
                           updated: Profile): (r: ProfileChange)
    ensures |r.profiles| == |editing|
    ensures forall i :: 0 <= i < |editing| ==>
              r.profiles[i] == if editing[i].id == rowId then updated else editing[i]
    ensures |r.sent| <= 1
    ensures r.sent != [] <==> currentProfileId == Some(rowId)
    ensures r.sent != [] ==>
              && r.sent[0].action == ACTION_UPDATE_TONE_CONTROLS
              && GetFloatExtra(r.sent[0], EXTRA_BASS, 0.0) == updated.bass
              && GetFloatExtra(r.sent[0], EXTRA_TREBLE, 0.0) == updated.treble
  {
    var sent := if currentProfileId == Some(rowId) then [ToneControlsIntent(updated.bass, updated.treble)] else [];
    ProfileChange(ReplaceById(editing, rowId, updated), sent)
  }

  /**
   * The record `ProfileEditor` commits from its text fields: a `copy` of the
   * shown profile, so the id never changes; a port text that is not an `Int`
   * becomes 8888.
   */
  function CommitEditor(profile: Profile, name: string, ipAddress: string, portText: string,
                        bitrate: Int32, sampleRate: Int32, channelConfig: string,
                        bass: real, treble: real): (r: Profile)
    ensures r.id == profile.id
    ensures r.port == match Text.ToIntOrNull(portText) { case Some(p) => p case None => 8888 }
    ensures (r.name, r.ipAddress, r.bitrate, r.sampleRate, r.channelConfig, r.bass, r.treble)
         == (name, ipAddress, bitrate, sampleRate, channelConfig, bass, treble)
  {
    var port := match Text.ToIntOrNull(portText) { case Some(p) => p case None => DEFAULT_PORT };
    profile.(name := name, ipAddress := ipAddress, port := port, bitrate := bitrate,
             sampleRate := sampleRate, channelConfig := channelConfig, bass := bass, treble := treble)
  }

  /** The editor starts from the profile's own values (the port as `port.toString()`); committing them gives the profile back. */
  lemma CommitUneditedIsIdentity(p: Profile)
    ensures CommitEditor(p, p.name, p.ipAddress, Text.IntToString(p.port), p.bitrate, p.sampleRate,
                         p.channelConfig, p.bass, p.treble) == p
  {
    Text.ToIntOrNullOfIntToString(p.port);
  }

  /**
   * Committing any edit of row `k` keeps every id, the length and the order of
   * the list, puts the edited record at position `k`, and keeps ids unique.
   */
  lemma {:induction false} EditKeepsIdsAndPosition(editing: seq<Profile>, k: nat, currentProfileId: Option<string>,
                                 name: string, ipAddress: string, portText: string,
                                 bitrate: Int32, sampleRate: Int32, channelConfig: string,
                                 bass: real, treble: real)
    requires k < |editing| && NoDuplicateIds(editing)
    ensures var updated := CommitEditor(editing[k], name, ipAddress, portText, bitrate, sampleRate,
                                        channelConfig, bass, treble);
            var r := OnProfileChange(editing, editing[k].id, currentProfileId, updated).profiles;
            && |r| == |editing|
            && (forall i :: 0 <= i < |r| ==> r[i].id == editing[i].id)
            && r[k] == updated
            && (forall i :: 0 <= i < |r| && i != k ==> r[i] == editing[i])
            && NoDuplicateIds(r)
  {
    var updated := CommitEditor(editing[k], name, ipAddress, portText, bitrate, sampleRate,
                                channelConfig, bass, treble);
    ReplaceKeepsIds(editing, updated);
  }

  /**
   * Opening an editor runs its commit once with the untouched fields: the list
   * stays as it was, and for the selected profile its current tone controls are
   * sent again.
   */
  lemma OpeningEditorResendsTone(editing: seq<Profile>, k: nat, currentProfileId: Option<string>)
    requires k < |editing| && NoDuplicateIds(editing)
    ensures var p := editing[k];
            var r := OnProfileChange(editing, p.id, currentProfileId,
                       CommitEditor(p, p.name, p.ipAddress, Text.IntToString(p.port), p.bitrate,
                                    p.sampleRate, p.channelConfig, p.bass, p.treble));
            && r.profiles == editing
            && r.sent == if currentProfileId == Some(p.id) then [ToneControlsIntent(p.bass, p.treble)] else []
  {
    var p := editing[k];
    CommitUneditedIsIdentity(p);
    var r := OnProfileChange(editing, p.id, currentProfileId, p).profiles;
    assert forall i :: 0 <= i < |editing| ==> r[i] == editing[i] by {
      forall i | 0 <= i < |editing| ensures r[i] == editing[i] {
        if editing[i].id == p.id {
          assert i == k;
        }
      }
    }
  }
}
