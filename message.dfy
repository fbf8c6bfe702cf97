/**
 * The envelopes of one exchange: `RequestMessage` wraps an inbound frame,
 * `ResponseMessage` writes the reply back onto the connection.
 */
module Message {
  import opened Wrappers
  import opened Bytes
  import opened Types
  import opened NetTypes

  /** `textproto.MIMEHeader`. */
  type Header = map<string, seq<string>>

  /** `RemoteAddrKey` in the canonical form `MIMEHeader.Set` stores it under. */
  const RemoteAddrHeader := "Remoteaddr"

  /**
   * What `Headers()` leaves in the envelope: the existing header, or a fresh
   * empty one, with the remote address set whenever a connection is attached.
   */
  function RefreshHeaders(h: Option<Header>, conn: Option<Connection>): (r: Header)
    ensures conn.Some? ==> RemoteAddrHeader in r && r[RemoteAddrHeader] == [conn.value.remoteAddr]
    ensures conn.None? ==> r == h.GetOr(map[])
    ensures forall k | k != RemoteAddrHeader :: (k in r <==> k in h.GetOr(map[]))
    ensures forall k | k in r && k != RemoteAddrHeader :: r[k] == h.GetOr(map[])[k]
  {
    var base := if h.None? then map[] else h.value;
    if conn.Some? then base[RemoteAddrHeader := [conn.value.remoteAddr]] else base
  }

  /** The peer's address, or "" without a connection. */
  function RemoteAddr(conn: Option<Connection>): (addr: string)
    ensures conn.None? ==> addr == ""
    ensures conn.Some? ==> addr == conn.value.remoteAddr
  {
    if conn.None? then "" else conn.value.remoteAddr
  }

  /** The message `RequestMessage.GetMsg` builds: TEXT data, the sender as message type, the frame as payload. */
  function TextMsg(from: string, body: Bytes): (m: RuleMsg)
    ensures m.dataType == TEXT && m.msgType == from && m.data == Str(body) && m.metadata == map[]
  {
    NewMsg(0, from, TEXT, map[], Str(body))
  }

  class RequestMessage {
    var headers: Option<Header>
    var conn: Option<Connection>
    var body: Bytes
    var msg: Option<RuleMsg>
    var err: Option<Error>

    /** `&RequestMessage{conn: conn, body: body}`. */
    constructor (conn: Option<Connection>, body: Bytes)
      ensures this.conn == conn && this.body == body
      ensures headers == None && msg == None && err == None
    {
      this.conn := conn;
      this.body := body;
      headers := None;
      msg := None;
      err := None;
    }

    function Body(): (b: Bytes)
      reads this
      ensures b == body
    {
      body
    }

    method Headers() returns (h: Header)
      modifies this`headers
      ensures headers == Some(h)
      ensures h == RefreshHeaders(old(headers), conn)
    {
      if headers.None? {
        headers := Some(map[]);
      }
      if conn.Some? {
        headers := Some(headers.value[RemoteAddrHeader := [conn.value.remoteAddr]]);
      }
      h := headers.value;
    }

    function From(): (addr: string)
      reads this
      ensures addr == RemoteAddr(conn)
    {
      if conn.None? then "" else conn.value.remoteAddr
    }

    /** The transport has no query or path parameters. */
    function GetParam(key: string): (v: string)
      ensures v == ""
    {
      ""
    }

    method SetMsg(m: Option<RuleMsg>)
      modifies this`msg
      ensures msg == m
    {
      msg := m;
    }

    /** Builds the message on first use and returns the stored one afterwards. */
    method GetMsg() returns (m: RuleMsg)
      modifies this`msg
      ensures msg == Some(m)
      ensures old(msg).Some? ==> m == old(msg).value
      ensures old(msg).None? ==> m == TextMsg(RemoteAddr(conn), body)
    {
      if msg.None? {
        var dataType := TEXT;
        var ruleMsg := NewMsg(0, From(), dataType, map[], Str(Body()));
        msg := Some(ruleMsg);
      }
      m := msg.value;
    }

    /** A stream transport has no status code: nothing changes. */
    method SetStatusCode(statusCode: int)
      ensures unchanged(this)
    {
    }

    method SetBody(b: Bytes)
      modifies this`body
      ensures body == b
    {
      body := b;
    }

    method SetError(e: Option<Error>)
      modifies this`err
      ensures err == e
    {
      err := e;
    }

    function GetError(): (e: Option<Error>)
      reads this
      ensures e == err
    {
      err
    }

    function Conn(): (c: Option<Connection>)
      reads this
      ensures c == conn
    {
      conn
    }
  }

  /** Once built, the request's message is returned unchanged by every later call. */
  method GetMsgIsMemoized(r: RequestMessage) returns (first: RuleMsg, second: RuleMsg)
    modifies r`msg
    ensures first == second
    ensures r.msg == Some(first)
    ensures old(r.msg).Some? ==> first == old(r.msg).value
    ensures old(r.msg).None? ==> first == TextMsg(RemoteAddr(r.conn), r.body)
  {
    first := r.GetMsg();
    second := r.GetMsg();
  }

  class ResponseMessage {
    var headers: Option<Header>
    var conn: Option<Connection>
    var body: Bytes
    var msg: Option<RuleMsg>
    var err: Option<Error>
    /**
     * The writes this envelope has issued on its connection, in order,
     * whether or not the connection reported an error for them.
     */
    ghost var sent: seq<Bytes>

    /** `&ResponseMessage{conn: conn}`. */
    constructor (conn: Option<Connection>)
      ensures this.conn == conn && body == [] && sent == []
      ensures headers == None && msg == None && err == None
    {
      this.conn := conn;
      body := [];
      headers := None;
      msg := None;
      err := None;
      sent := [];
    }

    function Body(): (b: Bytes)
      reads this
      ensures b == body
    {
      body
    }

    method Headers() returns (h: Header)
      modifies this`headers
      ensures headers == Some(h)
      ensures h == RefreshHeaders(old(headers), conn)
    {
      if headers.None? {
        headers := Some(map[]);
      }
      if conn.Some? {
        headers := Some(headers.value[RemoteAddrHeader := [conn.value.remoteAddr]]);
      }
      h := headers.value;
    }

    function From(): (addr: string)
      reads this
      ensures addr == RemoteAddr(conn)
    {
      if conn.None? then "" else conn.value.remoteAddr
    }

    function GetParam(key: string): (v: string)
      ensures v == ""
    {
      ""
    }

    method SetMsg(m: Option<RuleMsg>)
      modifies this`msg
      ensures msg == m
    {
      msg := m;
    }

    /** A response never builds a message of its own. */
    function GetMsg(): (m: Option<RuleMsg>)
      reads this
      ensures m == msg
    {
      msg
    }

    method SetStatusCode(statusCode: int)
      ensures unchanged(this)
    {
    }

    /**
     * Stores the body and writes it to the connection at once. Without a
     * connection nothing is written and the error slot says so; a failed
     * write records the write's error; a good one leaves the slot alone.
     */
    method SetBody(b: Bytes)
      modifies this`body, this`err, this`sent
      ensures body == b
      ensures conn.None? ==> err == Some(ConnNil) && sent == old(sent)
      ensures conn.None? ==> ErrorText(err.value) == "write err: conn is nil"
      ensures conn.Some? ==> sent == old(sent) + [b]
      ensures conn.Some? && conn.value.writeErr.Some? ==> err == Some(WriteFailed(conn.value.writeErr.value))
      ensures conn.Some? && conn.value.writeErr.None? ==> err == old(err)
    {
      body := b;
      if conn.None? {
        SetError(Some(ConnNil));
        return;
      }
      sent := sent + [b];
      if conn.value.writeErr.Some? {
        SetError(Some(WriteFailed(conn.value.writeErr.value)));
      }
    }

    method SetError(e: Option<Error>)
      modifies this`err
      ensures err == e
    {
      err := e;
    }

    function GetError(): (e: Option<Error>)
      reads this
      ensures e == err
    {
      err
    }
  }
}
