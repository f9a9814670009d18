/** The parts of net/http and net/url that the webhook handlers use. */
module Http {
  import opened Wrappers

  const StatusOK := 200
  const StatusMethodNotAllowed := 405
  const StatusInternalServerError := 500

  /** A request body: what ioutil.ReadAll yields (the bytes or the read error), and whether it was read. */
  class Body {
    const content: Result<string, string>
    var consumed: bool

    constructor (content: Result<string, string>)
      ensures this.content == content && !consumed
    {
      this.content := content;
      consumed := false;
    }

    /** ioutil.ReadAll(r.Body): the content on the first read; a drained body reads as empty. */
    method ReadAll() returns (r: Result<string, string>)
      modifies this
      ensures consumed
      ensures r == if old(consumed) then Success([]) else content
    {
      r := if consumed then Success([]) else content;
      consumed := true;
    }
  }

  /** A request: its method (verb), its parsed query string (url.Values) and its body. */
  datatype Request = Request(verb: string, query: map<string, seq<string>>, body: Body)

  /** url.Values.Get: the first value for the key, or "" when there is none. */
  function QueryGet(query: map<string, seq<string>>, key: string): (v: string)
    ensures (key !in query || query[key] == []) ==> v == []
    ensures key in query && query[key] != [] ==> v == query[key][0]
  {
    if key in query && |query[key]| > 0 then query[key][0] else []
  }

  /** An http.ResponseWriter: the status sent (0 while none is) and the bytes written. */
  class ResponseWriter {
    var status: int
    var body: string

    constructor ()
      ensures status == 0 && body == []
    {
      status, body := 0, [];
    }

    predicate Fresh()
      reads this
    {
      status == 0 && body == []
    }

    /** WriteHeader: only the first status counts. */
    method WriteHeader(code: int)
      requires code != 0
      modifies this
      ensures status == (if old(status) == 0 then code else old(status))
      ensures body == old(body)
    {
      if status == 0 {
        status := code;
      }
    }

    /** Write: sends an implicit 200 first when no status was sent. */
    method Write(b: string)
      modifies this
      ensures status == (if old(status) == 0 then StatusOK else old(status))
      ensures body == old(body) + b
    {
      if status == 0 {
        status := StatusOK;
      }
      body := body + b;
    }
  }

  /** http.Error: sends the status, then the message and a newline (headers are not modelled). */
  method Error(w: ResponseWriter, message: string, code: int)
    requires code != 0
    modifies w
    ensures w.status == (if old(w.status) == 0 then code else old(w.status))
    ensures w.body == old(w.body) + message + "\n"
  {
    w.WriteHeader(code);
    w.Write(message + "\n");
  }
}
