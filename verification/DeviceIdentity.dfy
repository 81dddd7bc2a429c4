/**
 * The device's persisted identity record (identity.go). The daemon advances the command
 * sequence; the daemon, `enroll` and `disconnect` replace the credentials. Each save
 * reads, modifies and replaces the record in one step.
 */
module DeviceIdentity {
  import opened Sequences

  datatype Identity = Identity(deviceId: string, lastSeen: nat, token: string, credential: string)

  /** What device.json holds; Unusable covers a missing and an unparsable file. */
  datatype File = Unusable | Stored(id: Identity)

  predicate SameDevice(file: File, id: Identity) { file.Stored? && file.id.deviceId == id.deviceId }

  /** The record SaveSequence leaves: keeps the record's credentials, refuses to move backwards. */
  function WithSequence(file: File, id: Identity, sequence: nat): (File, bool) {
    if sequence < id.lastSeen then (file, false)
    else if SameDevice(file, id) then
      if sequence < file.id.lastSeen then (file, false)
      else (Stored(file.id.(lastSeen := sequence)), true)
    else (Stored(id.(lastSeen := sequence)), true)
  }

  /** The record SaveCredentials leaves: replaces the credentials, keeps the larger sequence. */
  function WithCredentials(file: File, id: Identity, token: string, credential: string): File {
    var lastSeen := if SameDevice(file, id) && file.id.lastSeen > id.lastSeen then file.id.lastSeen else id.lastSeen;
    Stored(Identity(id.deviceId, lastSeen, token, credential))
  }

  /** Neither writer ever moves a device's sequence backwards, and the sequence writer
      never touches its credentials. */
  lemma SequenceNeverRegresses(file: File, id: Identity, sequence: nat, token: string, credential: string)
    requires SameDevice(file, id)
    ensures var (next, ok) := WithSequence(file, id, sequence);
            && next.Stored? && next.id.lastSeen >= file.id.lastSeen
            && next.id == file.id.(lastSeen := next.id.lastSeen)
            && (ok ==> next.id.lastSeen == sequence) && (!ok ==> next == file)
            && (ok <==> sequence >= Max(id.lastSeen, file.id.lastSeen))
    ensures var next := WithCredentials(file, id, token, credential);
            && next.id.lastSeen == Max(file.id.lastSeen, id.lastSeen)
            && next.id.token == token && next.id.credential == credential
  {}

  /** A record of another device, a missing or a broken one is replaced outright; the
      sequence writer still refuses to go behind its own snapshot. */
  lemma OtherRecordIsReplaced(file: File, id: Identity, sequence: nat, token: string, credential: string)
    requires file == Unusable || file.id.deviceId != id.deviceId
    ensures WithSequence(file, id, sequence)
            == if sequence >= id.lastSeen then (Stored(id.(lastSeen := sequence)), true) else (file, false)
    ensures WithCredentials(file, id, token, credential) == Stored(id.(token := token, credential := credential))
  {}

  /** The two writers of one record commute: whichever goes first, the record ends with the
      new credentials and the larger sequence. Going second, the sequence writer is refused
      exactly when the credential writer's snapshot was already ahead of it. */
  lemma WritersCommute(file: File, daemon: Identity, sequence: nat, cli: Identity, token: string, credential: string)
    requires SameDevice(file, daemon) && SameDevice(file, cli)
    requires WithSequence(file, daemon, sequence).1
    ensures var first := WithCredentials(WithSequence(file, daemon, sequence).0, cli, token, credential);
            var (second, ok) := WithSequence(WithCredentials(file, cli, token, credential), daemon, sequence);
            && first == second
            && first.id == Identity(file.id.deviceId, Max(sequence, cli.lastSeen), token, credential)
            && (ok <==> cli.lastSeen <= sequence)
  {}

  class IdentityStore {
    var file: File

    constructor (file: File)
      ensures this.file == file
    {
      this.file := file;
    }

    method SaveSequence(id: Identity, sequence: nat) returns (ok: bool)
      modifies this
      ensures (file, ok) == WithSequence(old(file), id, sequence)
    {
      if sequence < id.lastSeen { return false; }
      var record := id;
      if file.Stored? && file.id.deviceId == id.deviceId {
        record := record.(token := file.id.token, credential := file.id.credential);
        if sequence < file.id.lastSeen { return false; }
      }
      file := Stored(record.(lastSeen := sequence));
      return true;
    }

    method SaveCredentials(id: Identity, token: string, credential: string)
      modifies this
      ensures file == WithCredentials(old(file), id, token, credential)
    {
      var record := id;
      if file.Stored? && file.id.deviceId == id.deviceId && file.id.lastSeen > id.lastSeen {
        record := record.(lastSeen := file.id.lastSeen);
      }
      file := Stored(record.(token := token, credential := credential));
    }
  }
}
