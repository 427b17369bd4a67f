/** Client commands and their bytes in the Raft log. */
module KvCommands {
  import opened ByteStrings
  import opened Options
  import opened LittleEndian

  const OP_PUT: Byte := 1
  const OP_DELETE: Byte := 2
  const MAX_CLIENT_ID_LEN: nat := 4096
  const MAX_KEY_LEN: nat := 0x10_0000
  const MAX_VALUE_LEN: nat := 0x10_0000
  const COMMAND_HEADER_LEN: nat := 21

  datatype Command = Command(clientID: Bytes, requestID: nat, op: Byte, key: Bytes, value: Bytes)

  predicate Encodable(c: Command) {
    && (c.op == OP_PUT || c.op == OP_DELETE)
    && |c.clientID| <= MAX_CLIENT_ID_LEN
    && |c.key| <= MAX_KEY_LEN
    && |c.value| <= MAX_VALUE_LEN
    && c.requestID < TWO64
  }

  function EncodeCommand(c: Command): Bytes {
    [c.op] + (LE(|c.clientID|, 4)
              + (c.clientID + (LE(c.requestID, 8) + (LE(|c.key|, 4) + (c.key + (LE(|c.value|, 4) + c.value))))))
  }

  function DecodeCommand(data: Bytes): (r: Option<Command>)
    ensures r.Some? ==> (r.value.op == OP_PUT || r.value.op == OP_DELETE) && |r.value.clientID| <= MAX_CLIENT_ID_LEN
    ensures r.Some? ==> |r.value.key| <= MAX_KEY_LEN && |r.value.value| <= MAX_VALUE_LEN
  {
    if |data| < COMMAND_HEADER_LEN then None
    else
      var op, idLen := data[0], Value(data[1..5]);
      if (op != OP_PUT && op != OP_DELETE) || idLen > MAX_CLIENT_ID_LEN || |data| - 5 < idLen + 12 then None
      else
        var at := 5 + idLen;
        var requestID, keyLen := Value(data[at..at + 8]), Value(data[at + 8..at + 12]);
        var keyAt := at + 12;
        if keyLen > MAX_KEY_LEN || |data| - keyAt < keyLen + 4 then None
        else
          var valueAt := keyAt + keyLen + 4;
          var valueLen := Value(data[keyAt + keyLen..valueAt]);
          if valueLen > MAX_VALUE_LEN || |data| - valueAt != valueLen then None
          else Some(Command(data[5..at], requestID, op, data[keyAt..keyAt + keyLen], data[valueAt..]))
  }

  lemma CommandRoundTrip(c: Command)
    requires Encodable(c)
    ensures DecodeCommand(EncodeCommand(c)) == Some(c)
  {
    hide LE, Value;
    var data := EncodeCommand(c);
    var at := 5 + |c.clientID|;
    var keyAt := at + 12;
    var valueAt := keyAt + |c.key| + 4;
    Value32(|c.clientID|);
    Value64(c.requestID);
    Value32(|c.key|);
    Value32(|c.value|);
    assert data[0] == c.op && data[1..5] == LE(|c.clientID|, 4) && data[5..at] == c.clientID;
    assert data[at..at + 8] == LE(c.requestID, 8) && data[at + 8..keyAt] == LE(|c.key|, 4);
    assert data[keyAt..keyAt + |c.key|] == c.key && data[keyAt + |c.key|..valueAt] == LE(|c.value|, 4)
           && data[valueAt..] == c.value;
  }
}
