/** The three legs of the relay: the daemon hands a client's request to a puller
    (server/djb.c, djb_handle_forward), the plugin sends it to the stego server and sends the
    server's answer back as a push (plugin/jumpbox_plugin_chrome/circuit.js, Translator), and the
    daemon gives the client what the push says (djb_push). Between the plugin and the network
    every request and response passes the header handlers of module Headers. */
module Relay {
  import opened Collections
  import opened SeqNo
  import opened Exchange
  import opened Headers
  import Decimal

  /** A client's request, with the exit hostname already put in. */
  datatype ClientRequest = ClientRequest(
    key: Key, verb: string, hostname: string, rawuri: string,
    cookie: string, contentType: string, body: string)

  /** A response as an XMLHttpRequest presents it. `body` is None when its response is null. */
  datatype Reply = Reply(status: nat, reason: string, headers: seq<H>, body: Option<string>)

  /** A request as it leaves the plugin. */
  datatype Outbound = Outbound(verb: string, uri: string, headers: seq<H>, body: Option<string>)

  /** The values of all headers of a name. */
  function AllValues(hs: seq<H>, name: Name): seq<string> {
    if hs == [] then []
    else if hs[0].name == name then [hs[0].value] + AllValues(hs[1..], name)
    else AllValues(hs[1..], name)
  }

  /** What a reader of the wire finds: the first value. */
  function ValueOf(hs: seq<H>, name: Name): Option<string> {
    var all := AllValues(hs, name);
    if all == [] then None else Some(all[0])
  }

  function Join(values: seq<string>): string
    requires values != []
  {
    if |values| == 1 then values[0] else values[0] + ", " + Join(values[1..])
  }

  /** What getResponseHeader finds: all values, joined. */
  function Got(hs: seq<H>, name: Name): Option<string> {
    var all := AllValues(hs, name);
    if all == [] then None else Some(Join(all))
  }

  function Optional(name: Name, value: Option<string>): seq<H> {
    if value.Some? then [H(name, value.value)] else []
  }

  // ---------------------------------------------------------------- first leg: daemon to plugin

  const HTML: string := "text/html"
  const NON_POST_BODY: string := "Non-POST JumpBox response\r\n"

  /** The DJB headers of the answer to a pull. */
  function DjbHeaders(r: ClientRequest): seq<H> {
    [H(DjbUri, "http://" + r.hostname + r.rawuri), H(DjbMethod, r.verb), H(DjbSeqNo, PrintSeqNo(r.key))]
    + if r.cookie != "" then [H(DjbCookie, r.cookie)] else []
  }

  /** The answer to the pull. Everything but a POST gets a short HTML body. */
  function Forward(r: ClientRequest): Reply {
    if r.verb != "POST"
    then Reply(200, "OK", [H(ContentType, HTML)] + DjbHeaders(r), Some(NON_POST_BODY))
    else Reply(200, "OK", DjbHeaders(r) + [H(ContentType, PostType(r))], Some(r.body))
  }

  /** A client's or puller's connection, to which an answer is written. */
  class Connection {
    var status: int
    var reason: string
    var headers: seq<H>
    var body: Option<string>

    constructor ()
      ensures headers == [] && body == None
    {
      status, reason, headers, body := 0, "", [], None;
    }

    method Answer(status: int, reason: string, contentType: Option<string>)
      modifies this`status, this`reason, this`headers
      ensures this.status == status && this.reason == reason
      ensures headers == old(headers) + Optional(ContentType, contentType)
    {
      this.status, this.reason := status, reason;
      headers := headers + Optional(ContentType, contentType);
    }

    method AddHeader(name: Name, value: string)
      modifies this`headers
      ensures headers == old(headers) + [H(name, value)]
    {
      headers := headers + [H(name, value)];
    }
  }

  /** djb_handle_forward's writing to the puller. */
  method AddDjbHeaders(r: ClientRequest, ar: Connection)
    modifies ar`headers
    ensures ar.headers == old(ar.headers) + DjbHeaders(r)
  {
    ar.AddHeader(DjbUri, "http://" + r.hostname + r.rawuri);
    ar.AddHeader(DjbMethod, r.verb);
    ar.AddHeader(DjbSeqNo, PrintSeqNo(r.key));
    if r.cookie != "" {
      ar.AddHeader(DjbCookie, r.cookie);
    }
  }

  method AnswerPull(r: ClientRequest, ar: Connection)
    requires ar.headers == []
    modifies ar
    ensures ar.status == 200 && ar.headers == Forward(r).headers && ar.body == Forward(r).body
    ensures ar.body == Some(if r.verb == "POST" then r.body else NON_POST_BODY)
    ensures r.verb == "POST" && r.contentType != "" ==> H(ContentType, r.contentType) in ar.headers
    ensures r.verb != "POST" || r.contentType == "" ==> H(ContentType, HTML) in ar.headers
  {
    var isPost := r.verb == "POST";
    ar.Answer(200, "OK", if isPost then None else Some(HTML));
    AddDjbHeaders(r, ar);
    if !isPost {
      ar.body := Some(NON_POST_BODY);
    } else {
      ar.AddHeader(ContentType, PostType(r));
      ar.body := Some(r.body);
    }
  }

  function PostType(r: ClientRequest): string {
    if r.contentType != "" then r.contentType else HTML
  }

  // ---------------------------------------------------------------- second leg: the plugin

  /** An XMLHttpRequest that is being prepared. */
  class Xhr {
    var verb: string
    var uri: string
    var headers: seq<H>
    var blob: bool
    var seqNo: Option<string>

    constructor ()
      ensures headers == [] && seqNo == None && !blob
    {
      verb, uri, headers, blob, seqNo := "", "", [], false, None;
    }

    method Open(verb: string, uri: string)
      modifies this`verb, this`uri
      ensures this.verb == verb && this.uri == uri
    {
      this.verb, this.uri := verb, uri;
    }

    method SetRequestHeader(name: Name, value: string)
      modifies this`headers
      ensures headers == old(headers) + [H(name, value)]
    {
      headers := headers + [H(name, value)];
    }
  }

  /** What a translation comes to: an exception, or a request to be sent. */
  datatype Outcome = Thrown | Built(request: Outbound)

  function Translated(answer: Reply): Outcome {
    var verb := Got(answer.headers, DjbMethod);
    var uri := Got(answer.headers, DjbUri);
    var contentType := Got(answer.headers, ContentType);
    if verb != Some("GET") && verb != Some("POST") then Thrown
    else if uri == None then Thrown
    else
      var marks := [H(DjbServer, "true")] + Optional(DjbCookie, Got(answer.headers, DjbCookie));
      if verb == Some("GET") then Built(Outbound("GET", uri.value, marks, None))
      else if contentType == None then Thrown
      else Built(Outbound("POST", uri.value, marks + [H(ContentType, contentType.value)], answer.body))
  }

  /** The exchange number travels on the request object, not on the wire. */
  method JbResponse2Request(answer: Reply, request: Xhr) returns (thrown: bool, contents: Option<string>)
    requires request.headers == []
    modifies request
    ensures thrown <==> Translated(answer).Thrown?
    ensures !thrown ==> Translated(answer) == Built(Outbound(request.verb, request.uri, request.headers, contents))
                        && request.seqNo == Got(answer.headers, DjbSeqNo) && request.blob
    ensures thrown <==> || (&& Got(answer.headers, DjbMethod) != Some("GET")
                            && Got(answer.headers, DjbMethod) != Some("POST"))
                        || Got(answer.headers, DjbUri) == None
                        || (Got(answer.headers, DjbMethod) == Some("POST") && Got(answer.headers, ContentType) == None)
    ensures !thrown ==> && Got(answer.headers, DjbMethod) == Some(request.verb)
                        && Got(answer.headers, DjbUri) == Some(request.uri)
                        && contents == if request.verb == "POST" then answer.body else None
    ensures !thrown ==> request.headers == [H(DjbServer, "true")] + Optional(DjbCookie, Got(answer.headers, DjbCookie))
                                           + if request.verb == "POST"
                                             then Optional(ContentType, Got(answer.headers, ContentType)) else []
  {
    var uri := Got(answer.headers, DjbUri);
    var verb := Got(answer.headers, DjbMethod);
    contents := None;
    if verb != Some("GET") && verb != Some("POST") {
      return true, None;
    }
    if uri == None {
      return true, None;
    }
    request.Open(verb.value, uri.value);
    request.SetRequestHeader(DjbServer, "true");
    var cookie := Got(answer.headers, DjbCookie);
    if cookie.Some? {
      request.SetRequestHeader(DjbCookie, cookie.value);
    }
    request.blob := true;
    if verb == Some("POST") {
      var contentType := Got(answer.headers, ContentType);
      if contentType == None {
        return true, None;
      }
      request.SetRequestHeader(ContentType, contentType.value);
      contents := answer.body;
    }
    request.seqNo := Got(answer.headers, DjbSeqNo);
    thrown := false;
  }

  // ---------------------------------------------------------------- over the wire

  /** The browser sends a request with headers of its own around those set on the object; the
      list passes the header handler. */
  function OnWire(x: Outbound, before: seq<H>, after: seq<H>, jbHost: string, origin: string): Outbound {
    x.(headers := Outgoing(before + x.headers + after, jbHost, origin))
  }

  /** Headers set by the plugin: the browser does not let it set these two. */
  ghost predicate Own(hs: seq<H>) {
    forall h :: h in hs ==> h.name != Host && h.name != Cookie
  }

  /** Headers a browser adds: cookies and anything else, but none of those the relay sets, and no
      Host header that matches. */
  ghost predicate Plain(hs: seq<H>, jbHost: string) {
    forall h :: h in hs ==> !h.name.DjbServer? && !h.name.DjbCookie? && !h.name.DjbSetCookie?
                            && !h.name.DjbSeqNo? && !h.name.DjbHttpCode? && !h.name.DjbHttpText?
                            && !h.name.ContentType? && !IsHost(h, jbHost)
  }

  // ---------------------------------------------------------------- third leg: back to the daemon

  const NOT_MADE: string := "Request not made"

  function HttpCode(response: Reply): nat {
    if response.status == 0 then 555 else response.status
  }

  function HttpText(response: Reply): string {
    if response.status == 0 then NOT_MADE else response.reason
  }

  /** Reading the size of a null body throws, after the headers are set. */
  function TranslatedBack(response: Reply, seqNo: string, uri: string): Outcome {
    if response.body == None then Thrown
    else Built(Outbound("POST", uri,
                        [H(DjbSeqNo, seqNo), H(DjbHttpCode, Decimal.Print(HttpCode(response))),
                         H(DjbHttpText, HttpText(response))]
                        + Optional(DjbSetCookie, Got(response.headers, DjbSetCookie))
                        + Optional(ContentType, Got(response.headers, ContentType)),
                        response.body))
  }

  method SsResponse2Request(response: Reply, seqNo: string, uri: string, request: Xhr)
    returns (thrown: bool, contents: Option<string>)
    requires request.headers == []
    modifies request
    ensures thrown <==> TranslatedBack(response, seqNo, uri).Thrown?
    ensures !thrown ==> TranslatedBack(response, seqNo, uri)
                        == Built(Outbound(request.verb, request.uri, request.headers, contents)) && request.blob
    ensures thrown <==> response.body == None
    ensures !thrown ==> && request.verb == "POST" && request.uri == uri && contents == response.body
                        && request.headers
                           == [H(DjbSeqNo, seqNo),
                               H(DjbHttpCode, Decimal.Print(if response.status == 0 then 555 else response.status)),
                               H(DjbHttpText, if response.status == 0 then NOT_MADE else response.reason)]
                              + Optional(DjbSetCookie, Got(response.headers, DjbSetCookie))
                              + Optional(ContentType, Got(response.headers, ContentType))
  {
    contents := response.body;
    request.Open("POST", uri);
    var httpcode, httptext;
    if response.status == 0 {
      httpcode, httptext := 555, NOT_MADE;
    } else {
      httpcode, httptext := response.status, response.reason;
    }
    request.SetRequestHeader(DjbSeqNo, seqNo);
    request.SetRequestHeader(DjbHttpCode, Decimal.Print(httpcode));
    request.SetRequestHeader(DjbHttpText, httptext);
    assert request.headers == [H(DjbSeqNo, seqNo), H(DjbHttpCode, Decimal.Print(HttpCode(response))),
                               H(DjbHttpText, HttpText(response))];
    var setCookie := Got(response.headers, DjbSetCookie);
    if setCookie.Some? {
      request.SetRequestHeader(DjbSetCookie, setCookie.value);
    }
    request.blob := true;
    var contentType := Got(response.headers, ContentType);
    if contentType.Some? {
      request.SetRequestHeader(ContentType, contentType.value);
    }
    thrown := contents == None;
  }

  function Text(v: Option<string>): string {
    if v.Some? then v.value else ""
  }

  /** The DJB headers the daemon finds in a push. */
  function PushOf(hs: seq<H>): Push {
    Push(Text(ValueOf(hs, DjbHttpCode)), Text(ValueOf(hs, DjbHttpText)), Text(ValueOf(hs, DjbSeqNo)))
  }

  /** What the client is answered, its request having been found. */
  datatype ClientAnswer = ClientAnswer(
    status: int, reason: string, setCookie: Option<string>, contentType: Option<string>, body: Option<string>)

  function ClientGets(x: Outbound): ClientAnswer {
    var push, setCookie := PushOf(x.headers), Text(ValueOf(x.headers, DjbSetCookie));
    ClientAnswer(Decimal.Atoi(push.httpcode), push.httptext,
                 if setCookie != "" then Some(setCookie) else None,
                 ValueOf(x.headers, ContentType), x.body)
  }

  /** djb_push's writing to the client: all headers of the push go along. */
  method AnswerClient(x: Outbound, pr: Connection)
    requires pr.headers == []
    modifies pr
    ensures var got := ClientGets(x);
            && pr.status == got.status && pr.reason == got.reason && pr.body == got.body
            && pr.headers == Optional(SetCookie, got.setCookie) + x.headers
  {
    var push, setCookie := PushOf(x.headers), Text(ValueOf(x.headers, DjbSetCookie));
    pr.Answer(Decimal.Atoi(push.httpcode), push.httptext, None);
    if setCookie != "" {
      pr.AddHeader(SetCookie, setCookie);
    }
    pr.headers := pr.headers + x.headers;
    pr.body := x.body;
  }
}
