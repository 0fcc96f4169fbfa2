/** The wire envelope of the gateway protocol (`message`) and the value a
    pending request hands to its caller (`response`). */
module Envelope {
  import opened Wrappers
  import opened Errors

  /** A decoded or outgoing envelope.  Absent JSON members decode as "". */
  datatype Message = Message(sid: string, model: string, data: string, token: string, cmd: string)

  /** A JSON scalar that a request parameter may hold (`interface{}` values). */
  datatype Value = Str(s: string) | Num(n: int) | Bool(b: bool) | Null

  /** The JSON object carried, as text, in an outgoing envelope's `data`. */
  type Params = map<string, Value>

  /** What a caller of `request` receives: an error, or the acknowledgement
      together with the bytes of its `data` member. */
  datatype Response = Failed(err: Error) | Replied(msg: Message, data: string)

  /** The members `json.Marshal` writes, in declaration order: `sid`, `model`,
      `data` and `token` carry `omitempty`, `cmd` does not. */
  function Fields(m: Message): (fs: seq<(string, string)>)
    ensures Lookup(fs, "cmd") == Some(m.cmd)
    ensures Lookup(fs, "sid").Some? <==> m.sid != ""
    ensures Lookup(fs, "model").Some? <==> m.model != ""
    ensures Lookup(fs, "data").Some? <==> m.data != ""
    ensures Lookup(fs, "token").Some? <==> m.token != ""
  {
    var tail: seq<(string, string)> := [("cmd", m.cmd)];
    assert tail[1..] == [];
    assert "cmd"[0] == 'c' && "sid"[0] == 's' && "model"[0] == 'm' && "data"[0] == 'd' && "token"[0] == 't';
    assert Lookup(tail, "sid") == None;
    assert Lookup(tail, "model") == None;
    assert Lookup(tail, "data") == None;
    assert Lookup(tail, "token") == None;
    Member("sid", m.sid, Member("model", m.model, Member("data", m.data, Member("token", m.token, tail))))
  }

  /** Writes member `key` in front of `rest` unless its value is empty. */
  function Member(key: string, v: string, rest: seq<(string, string)>): (fs: seq<(string, string)>)
    ensures forall k :: Lookup(fs, k) == if k == key && v != "" then Some(v) else Lookup(rest, k)
  {
    if v == "" then rest
    else
      var fs := [(key, v)] + rest;
      assert fs[1..] == rest;
      fs
  }

  /** The value of the first member named `key`. */
  function Lookup(fs: seq<(string, string)>, key: string): Option<string> {
    if fs == [] then None
    else if fs[0].0 == key then Some(fs[0].1)
    else Lookup(fs[1..], key)
  }

  /** `json.Unmarshal` into a fresh `message`: a missing member stays "". */
  function FromFields(fs: seq<(string, string)>): Message {
    Message(
      Lookup(fs, "sid").GetOr(""), Lookup(fs, "model").GetOr(""), Lookup(fs, "data").GetOr(""),
      Lookup(fs, "token").GetOr(""), Lookup(fs, "cmd").GetOr(""))
  }

  /** Omitting empty strings loses nothing: decoding the written members gives
      the message back. */
  lemma DecodeFields(m: Message)
    ensures FromFields(Fields(m)) == m
  {
  }
}
