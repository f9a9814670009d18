/**
 * webhook..go: the application's own /webhook handler. Unlike the
 * WebhookServer's, it reads the body before looking for a validation token,
 * and writes straight to the webhook panel instead of the channel.
 */
module Webhook {
  import opened Wrappers
  import Http
  import Strings
  import Cli
  import HttpServer

  /** The response and the text appended to the webhook panel, if any. */
  datatype Reply = Reply(status: int, body: string, appended: Option<string>)

  function Classify(verb: string, query: map<string, seq<string>>, content: Result<string, string>): Reply {
    if verb != "POST" then Reply(Http.StatusMethodNotAllowed, "Method not allowed\n", None)
    else match content
      case Failure(_) => Reply(Http.StatusInternalServerError, "Failed to read request body\n", None)
      case Success(b) =>
        var token := Http.QueryGet(query, HttpServer.ValidationKey);
        if token != [] then Reply(Http.StatusOK, token, Some("[green]Validation token received:[white] " + token + "\n"))
        else Reply(Http.StatusOK, "Notification received", Some("[yellow]Webhook notification:[white] " + b + "\n"))
  }

  /** App.handleWebhook: answers through w and appends to the webhook panel on success. */
  method HandleWebhook(app: Cli.App, req: Http.Request, w: Http.ResponseWriter, height: int, visibleLength: string -> nat)
    requires w.Fresh() && !req.body.consumed && app.Valid()
    modifies w, req.body, app.webhookOutput
    ensures app.output.chunks == old(app.output.chunks) && app.output.row == old(app.output.row)
    ensures var r := Classify(req.verb, req.query, req.body.content);
      && w.status == r.status && w.body == r.body
      && req.body.consumed == (req.verb == "POST")
      && (r.appended.None? ==> app.webhookOutput.chunks == old(app.webhookOutput.chunks)
                               && app.webhookOutput.row == old(app.webhookOutput.row))
      && (r.appended.Some? ==>
            && app.webhookOutput.chunks == old(app.webhookOutput.chunks) + [r.appended.value]
            && app.webhookOutput.row
               == Cli.ScrollAfterAppend(visibleLength(app.webhookOutput.Text()), height, old(app.webhookOutput.row)))
  {
    if req.verb != "POST" {
      Http.Error(w, "Method not allowed", Http.StatusMethodNotAllowed);
      return;
    }
    var body := req.body.ReadAll();
    if body.Failure? {
      Http.Error(w, "Failed to read request body", Http.StatusInternalServerError);
      return;
    }
    var token := Http.QueryGet(req.query, HttpServer.ValidationKey);
    if token != [] {
      w.WriteHeader(Http.StatusOK);
      w.Write(token);
      app.AppendToWebhookOutput("[green]Validation token received:[white] " + token + "\n", height, visibleLength);
      return;
    }
    app.AppendToWebhookOutput("[yellow]Webhook notification:[white] " + body.value + "\n", height, visibleLength);
    w.WriteHeader(Http.StatusOK);
    w.Write("Notification received");
  }

  /** The panel is written exactly for an accepted POST, and then shows the token or the body verbatim. */
  lemma AppendedIff(verb: string, query: map<string, seq<string>>, content: Result<string, string>)
    ensures Classify(verb, query, content).appended.Some? <==> verb == "POST" && content.Success?
    ensures Classify(verb, query, content).appended.Some? <==> Classify(verb, query, content).status == 200
    ensures verb == "POST" && content.Success? && Http.QueryGet(query, HttpServer.ValidationKey) == [] ==>
      Strings.Unwrap(Classify(verb, query, content).appended.value, "[yellow]Webhook notification:[white] ", "\n")
        == Some(content.value)
  {
    if verb == "POST" && content.Success? && Http.QueryGet(query, HttpServer.ValidationKey) == [] {
      Strings.UnwrapWrap("[yellow]Webhook notification:[white] ", content.value, "\n");
    }
  }

  /**
   * The two handlers give the same response except in one case: a POST with
   * a validation token whose body cannot be read, which the server echoes
   * and this handler refuses with a 500.
   */
  lemma HandlersAgreeExceptUnreadableValidation(verb: string, query: map<string, seq<string>>,
                                                content: Result<string, string>, clock: string)
    ensures var a, b := Classify(verb, query, content), HttpServer.Classify(verb, query, content, clock);
      (a.status, a.body) != (b.status, b.body)
      <==> verb == "POST" && Http.QueryGet(query, HttpServer.ValidationKey) != [] && content.Failure?
    ensures var a, b := Classify(verb, query, content), HttpServer.Classify(verb, query, content, clock);
      verb == "POST" && Http.QueryGet(query, HttpServer.ValidationKey) != [] && content.Failure? ==>
        a.status == 500 && b.status == 200 && b.body == Http.QueryGet(query, HttpServer.ValidationKey)
  {
  }
}
