/**
 * httpserver.go: the WebhookServer's /webhook handler and its start-up. The
 * handler answers the HTTP request and queues one message for the webhook
 * panel on the application's channel. The clock reading ("15:04:05") is a
 * parameter.
 */
module HttpServer {
  import opened Wrappers
  import Http
  import Strings
  import Io
  import Graph

  /** How the handler treats a request: the response, the queued message, and whether the body was read. */
  datatype Reply = Reply(status: int, body: string, queued: string, readsBody: bool)

  const ValidationKey := "validationToken"

  /** The messages the handler queues for the webhook panel. */
  function RefusedMessage(clock: string, verb: string): string {
    "[" + clock + "] Method not allowed: " + verb + "\n"
  }

  function TokenMessage(clock: string, token: string): string {
    "[yellow][" + clock + "][white] Validation token sent: " + token + "\n"
  }

  function ReadErrorMessage(clock: string, err: string): string {
    "[yellow][" + clock + "][white] Failed to read request body: " + err + "\n"
  }

  function NotificationMessage(clock: string, body: string): string {
    "[yellow][" + clock + "][white] Received notification: " + body + "\n"
  }

  /**
   * The handler's decision. Anything but POST is refused (before the body is
   * read); a non-empty validation token is echoed (the body is not read);
   * otherwise the body is read, and a read error is a 500.
   */
  function Classify(verb: string, query: map<string, seq<string>>, content: Result<string, string>, clock: string): Reply {
    if verb != "POST" then
      Reply(Http.StatusMethodNotAllowed, "Method not allowed\n", RefusedMessage(clock, verb), false)
    else
      var token := Http.QueryGet(query, ValidationKey);
      if token != [] then
        Reply(Http.StatusOK, token, TokenMessage(clock, token), false)
      else match content
        case Failure(err) =>
          Reply(Http.StatusInternalServerError, "Failed to read request body\n", ReadErrorMessage(clock, err), true)
        case Success(b) =>
          Reply(Http.StatusOK, "Notification received", NotificationMessage(clock, b), true)
  }

  /** handleWebhook: answers the request through w and queues one message on the channel. */
  method HandleWebhook(req: Http.Request, clock: string, w: Http.ResponseWriter, channel: Io.Channel)
    requires w.Fresh() && !req.body.consumed
    modifies w, req.body, channel
    ensures var r := Classify(req.verb, req.query, req.body.content, clock);
      && w.status == r.status && w.body == r.body
      && channel.items == old(channel.items) + [r.queued]
      && req.body.consumed == r.readsBody
  {
    if req.verb != "POST" {
      channel.Send(RefusedMessage(clock, req.verb));
      Http.Error(w, "Method not allowed", Http.StatusMethodNotAllowed);
      return;
    }
    var token := Http.QueryGet(req.query, ValidationKey);
    if token != [] {
      w.WriteHeader(Http.StatusOK);
      w.Write(token);
      channel.Send(TokenMessage(clock, token));
      return;
    }
    var body := req.body.ReadAll();
    if body.Failure? {
      channel.Send(ReadErrorMessage(clock, body.error));
      Http.Error(w, "Failed to read request body", Http.StatusInternalServerError);
      return;
    }
    channel.Send(NotificationMessage(clock, body.value));
    w.WriteHeader(Http.StatusOK);
    w.Write("Notification received");
  }

  /** Anything but POST is refused whatever its query and body, and the body is left unread. */
  lemma NonPostRefused(verb: string, q1: map<string, seq<string>>, q2: map<string, seq<string>>,
                       c1: Result<string, string>, c2: Result<string, string>, clock: string)
    requires verb != "POST"
    ensures Classify(verb, q1, c1, clock) == Classify(verb, q2, c2, clock)
    ensures Classify(verb, q1, c1, clock).status == 405 && !Classify(verb, q1, c1, clock).readsBody
  {
  }

  /** A validation request is answered with exactly its token, whatever the body holds, and the body is never read. */
  lemma ValidationEchoed(query: map<string, seq<string>>, c1: Result<string, string>, c2: Result<string, string>, clock: string)
    requires Http.QueryGet(query, ValidationKey) != []
    ensures var r := Classify("POST", query, c1, clock);
      r == Classify("POST", query, c2, clock) && r.status == 200 && r.body == query[ValidationKey][0] && !r.readsBody
  {
  }

  /** A notification whose body cannot be read is a 500, and the read error is queued for the panel. */
  lemma ReadFailureRefused(query: map<string, seq<string>>, err: string, clock: string)
    requires Http.QueryGet(query, ValidationKey) == []
    ensures var r := Classify("POST", query, Failure(err), clock);
      r.status == 500 && r.readsBody && r.queued == ReadErrorMessage(clock, err)
  {
  }

  /** An empty validationToken parameter counts as no parameter at all. */
  lemma EmptyTokenIsAbsent(verb: string, query: map<string, seq<string>>, content: Result<string, string>, clock: string)
    requires Http.QueryGet(query, ValidationKey) == []
    ensures Classify(verb, query, content, clock) == Classify(verb, query - {ValidationKey}, content, clock)
  {
  }

  /** The handler answers 200 exactly for a POST that carries a token or whose body could be read. */
  lemma StatusOkIff(verb: string, query: map<string, seq<string>>, content: Result<string, string>, clock: string)
    ensures Classify(verb, query, content, clock).status == 200
        <==> verb == "POST" && (Http.QueryGet(query, ValidationKey) != [] || content.Success?)
    ensures Classify(verb, query, content, clock).status in {200, 405, 500}
  {
  }

  /** A notification's body is not echoed to the caller but reaches the panel verbatim. */
  lemma NotificationQueued(query: map<string, seq<string>>, b: string, clock: string)
    requires Http.QueryGet(query, ValidationKey) == []
    ensures var r := Classify("POST", query, Success(b), clock);
      && r.body == "Notification received"
      && Strings.Unwrap(r.queued, "[yellow][" + clock + "][white] Received notification: ", "\n") == Some(b)
  {
    Strings.UnwrapWrap("[yellow][" + clock + "][white] Received notification: ", b, "\n");
  }

  /** The start-up message queued by Start. */
  function StartMessage(clock: string, address: string): string {
    "[yellow][" + clock + "][white] Webhook server starting on port " + address + "...\n"
  }

  /** The start-up message names exactly the address the server listens on. */
  lemma StartAnnouncesAddress(clock: string, address: string)
    ensures Strings.Unwrap(StartMessage(clock, address), "[yellow][" + clock + "][white] Webhook server starting on port ", "...\n")
            == Some(address)
  {
    Strings.UnwrapWrap("[yellow][" + clock + "][white] Webhook server starting on port ", address, "...\n");
  }

  /** Start: looks up the port, announces it on the channel, and serves on it. */
  method Start(env: map<string, string>, clock: string, channel: Io.Channel) returns (listen: Io.Exit<string>)
    modifies channel
    ensures listen == Graph.GetPort(env)
    ensures listen.Fatal? ==> channel.items == old(channel.items)
    ensures listen.Returned? ==>
      channel.items == old(channel.items) + [StartMessage(clock, listen.value)]
  {
    listen := Graph.GetPort(env);
    if listen.Fatal? {
      return;
    }
    channel.Send(StartMessage(clock, listen.value));
  }
}
