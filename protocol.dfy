/**
 * The two halves together: what the HTTP functions send is read back by
 * `callFunction`. The body text travels as JSON; each lemma takes the
 * client's `parse` to give back the value the server sent.
 */
module Protocol {
  import opened Wrappers
  import opened Text
  import opened Js
  import Client = GeminiService
  import Server = CloudFunctions

  /** The body the server sent, as the client parses it. */
  predicate Delivers(parse: string -> Parsed, text: string, sent: Server.Body) {
    text != "" && sent.JsonBody? && parse(text) == Parsed(sent.value)
  }

  /** A value a handler returns reaches the caller of `callFunction` as it
    * is, unless it is null or undefined, in which case the caller gets the
    * whole envelope. */
  lemma ReturnedValueReachesClient(req: Server.HttpRequest, handler: Json -> Server.HandlerOutcome,
                                   name: string, text: string, parse: string -> Parsed)
    requires req.httpMethod == "POST" && handler(Server.PayloadOf(req)).Returned?
    requires Delivers(parse, text, Server.Respond(req, handler).body)
    ensures var v := handler(Server.PayloadOf(req)).value;
            var r := Server.Respond(req, handler);
            && r.status == 200
            && (!Nullish(v) ==> Client.Verdict(Client.Answered(r.status, text), name, parse) == Client.Resolved(v))
            && (Nullish(v) ==>
                  Client.Verdict(Client.Answered(r.status, text), name, parse) == Client.Resolved(JObj(map["result" := v])))
  {
  }

  /** A handler's error message reaches the caller as the message of the
    * rejection. */
  lemma ThrownMessageReachesClient(req: Server.HttpRequest, handler: Json -> Server.HandlerOutcome,
                                   name: string, text: string, parse: string -> Parsed)
    requires req.httpMethod == "POST" && handler(Server.PayloadOf(req)).Threw?
    requires Delivers(parse, text, Server.Respond(req, handler).body)
    ensures var o := handler(Server.PayloadOf(req));
            var r := Server.Respond(req, handler);
            && r.status == 500
            && Client.Verdict(Client.Answered(r.status, text), name, parse)
               == Client.Rejected(Raise(OrElse(o.message, "Unexpected error")))
  {
  }

  /** A request with a method other than POST or OPTIONS is rejected with
    * the server's explanation. `callFunction` itself always sends POST, so
    * this is what any other caller of the HTTP functions would see, read
    * with the client's own verdict rule. */
  lemma MethodNotAllowedReachesClient(req: Server.HttpRequest, handler: Json -> Server.HandlerOutcome,
                                      name: string, text: string, parse: string -> Parsed)
    requires req.httpMethod != "POST" && req.httpMethod != "OPTIONS"
    requires Delivers(parse, text, Server.Respond(req, handler).body)
    ensures Client.Verdict(Client.Answered(Server.Respond(req, handler).status, text), name, parse)
            == Client.Rejected(Raise(Server.METHOD_NOT_ALLOWED))
  {
  }

  /** The request `geniusEngine.resolveWebPageTitle(url)` sends. */
  function TitleRequest(url: string): Server.HttpRequest {
    Server.HttpRequest("POST", JObj(Client.TitlePayload(url)))
  }

  /** End to end, a live title that the title function produced is a string
    * without "http", and a title function that throws leaves the caller
    * with "External Resource". */
  lemma LiveTitle(env: Client.ClientEnv, url: string, net: (nat, string) -> Client.Reply,
                  parse: string -> Parsed, hostname: string -> Option<string>, now: nat,
                  keys: Server.KeySources, reply: Server.GenReply, stack: string, text: string)
    requires !Client.UseMock(env)
    requires var r := Server.Respond(TitleRequest(url), p => Server.TitleOutcome(p, keys, reply, stack));
             && net(0, Client.PrimaryUrl(env, Client.TITLE_OPERATION)) == Client.Answered(r.status, text)
             && Delivers(parse, text, r.body)
    ensures var title := Client.EngineTitle(
              Client.Dispatch(env, Client.TITLE_OPERATION, Client.TitlePayload(url), net, parse, hostname, now).outcome);
            var o := Server.TitleOutcome(JObj(Client.TitlePayload(url)), keys, reply, stack);
            && (o.Returned? ==> title.JStr? && !Contains(title.s, "http"))
            && (o.Threw? ==> title == JStr(Client.EXTERNAL_RESOURCE))
  {
    var o := Server.TitleOutcome(JObj(Client.TitlePayload(url)), keys, reply, stack);
    var handler := p => Server.TitleOutcome(p, keys, reply, stack);
    var r := Server.Respond(TitleRequest(url), handler);
    assert Server.PayloadOf(TitleRequest(url)) == JObj(Client.TitlePayload(url));
    assert r == Server.Envelope(o);
    Server.TitleOutcomeProperties(JObj(Client.TitlePayload(url)), keys, reply, stack);
    var primary := Client.PrimaryUrl(env, Client.TITLE_OPERATION);
    Client.AnsweredDispatch(env, Client.TITLE_OPERATION, Client.TitlePayload(url), net, parse, hostname, now);
    Client.SettleOutcome(Client.TITLE_OPERATION, primary, r.status, text, [Client.Attempt(Client.Primary, primary)], net, parse);
    assert r.status != 404;
  }
}
