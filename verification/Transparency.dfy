/** What goes through the relay unchanged, and when exactly: the client's request to the stego
    server, and the server's answer back to the client. */
module Transparency {
  import opened Collections
  import opened SeqNo
  import opened Exchange
  import opened ExchangeSafety
  import opened Headers
  import opened Relay
  import Decimal

  // ---------------------------------------------------------------- values under a name

  lemma AllPrepend(h: H, hs: seq<H>, name: Name)
    ensures AllValues([h] + hs, name) == (if h.name == name then [h.value] else []) + AllValues(hs, name)
  {
    assert ([h] + hs)[1..] == hs;
  }

  lemma {:induction false} AllConcat(xs: seq<H>, ys: seq<H>, name: Name)
    ensures AllValues(xs + ys, name) == AllValues(xs, name) + AllValues(ys, name)
  {
    if xs == [] {
      assert xs + ys == ys;
    } else {
      assert xs + ys == [xs[0]] + (xs[1..] + ys);
      AllPrepend(xs[0], xs[1..] + ys, name);
      AllConcat(xs[1..], ys, name);
    }
  }

  lemma {:induction false} Absent(hs: seq<H>, name: Name)
    requires forall h :: h in hs ==> h.name != name
    ensures AllValues(hs, name) == []
  {
    if hs != [] {
      assert hs[0] in hs;
      Absent(hs[1..], name);
    }
  }

  /** A list of three parts, the outer two without the name. */
  lemma AllInMiddle(before: seq<H>, hs: seq<H>, after: seq<H>, name: Name)
    requires forall h :: h in before ==> h.name != name
    requires forall h :: h in after ==> h.name != name
    ensures AllValues(before + hs + after, name) == AllValues(hs, name)
  {
    AllConcat(before, hs, name);
    AllConcat(before + hs, after, name);
    Absent(before, name);
    Absent(after, name);
  }

  lemma AllOfOptional(n: Name, value: Option<string>, name: Name)
    ensures AllValues(Optional(n, value), name) == if n == name && value.Some? then [value.value] else []
  {
  }

  /** A list of three headers and two optional parts. */
  lemma AllInFive(a: H, b: H, c: H, xs: seq<H>, ys: seq<H>, name: Name)
    requires a.name != b.name && a.name != c.name && b.name != c.name
    ensures AllValues([a, b, c] + xs + ys, name)
         == (if a.name == name then [a.value] else if b.name == name then [b.value]
             else if c.name == name then [c.value] else [])
            + (AllValues(xs, name) + AllValues(ys, name))
  {
    assert [a, b, c] + xs + ys == [a] + ([b] + ([c] + (xs + ys)));
    AllPrepend(a, [b] + ([c] + (xs + ys)), name);
    AllPrepend(b, [c] + (xs + ys), name);
    AllPrepend(c, xs + ys, name);
    AllConcat(xs, ys, name);
  }

  lemma GotOnce(hs: seq<H>, name: Name)
    requires |AllValues(hs, name)| <= 1
    ensures Got(hs, name) == ValueOf(hs, name)
  {
  }

  // ---------------------------------------------------------------- what survives the handlers

  /** A filter that keeps every header of a name leaves its values alone. */
  lemma {:induction false} FilterKeepsAll(hs: seq<H>, origin: string, name: Name)
    requires name != DjbServer && name != Origin
    ensures AllValues(Filter(hs, origin), name) == AllValues(hs, name)
  {
    if hs != [] {
      FilterKeepsAll(hs[1..], origin, name);
      AllPrepend(hs[0], Filter(hs[1..], origin), name);
    }
  }

  lemma {:induction false} RenameKeepsAll(hs: seq<H>, from: Name, to: Name, name: Name)
    requires name != from && name != to
    ensures AllValues(RenameFirst(hs, from, to), name) == AllValues(hs, name)
    decreases |hs|
  {
    if hs != [] {
      var h, rest := hs[0], hs[1..];
      assert hs == [h] + rest;
      RenamePrepend(h, rest, from, to);
      if h.name == from {
        AllPrepend(H(to, h.value), rest, name);
      } else {
        RenameKeepsAll(rest, from, to, name);
        AllPrepend(h, RenameFirst(rest, from, to), name);
      }
    }
  }

  /** One more value, somewhere among the others. */
  ghost predicate Inserted(xs: seq<string>, v: string, ys: seq<string>) {
    exists i :: 0 <= i <= |xs| && ys == xs[..i] + [v] + xs[i..]
  }

  lemma InsertedAfter(xs: seq<string>, v: string, ys: seq<string>, x: string)
    requires Inserted(xs, v, ys)
    ensures Inserted([x] + xs, v, [x] + ys)
  {
    var i :| 0 <= i <= |xs| && ys == xs[..i] + [v] + xs[i..];
    var zs := [x] + xs;
    assert zs[..i + 1] == [x] + xs[..i] && zs[i + 1..] == xs[i..];
    assert [x] + ys == zs[..i + 1] + [v] + zs[i + 1..];
  }

  /** Renaming the first header of one name moves its value to the other name. */
  lemma {:induction false} RenameMoves(hs: seq<H>, from: Name, to: Name)
    requires from != to
    ensures var got := AllValues(RenameFirst(hs, from, to), to);
            if AllValues(hs, from) == [] then got == AllValues(hs, to)
            else Inserted(AllValues(hs, to), AllValues(hs, from)[0], got)
    decreases |hs|
  {
    if hs != [] {
      var h, rest := hs[0], hs[1..];
      assert hs == [h] + rest;
      RenamePrepend(h, rest, from, to);
      if h.name == from {
        var others := AllValues(rest, to);
        AllPrepend(H(to, h.value), rest, to);
        assert [h.value] + others == others[..0] + [h.value] + others[0..];
      } else {
        RenameMoves(rest, from, to);
        AllPrepend(h, RenameFirst(rest, from, to), to);
        if h.name == to && AllValues(rest, from) != [] {
          var moved := AllValues(RenameFirst(rest, from, to), to);
          InsertedAfter(AllValues(rest, to), AllValues(rest, from)[0], moved, h.value);
        }
      }
    }
  }

  lemma NoMatch(x: Outbound, before: seq<H>, after: seq<H>, jbHost: string)
    requires Plain(before, jbHost) && Plain(after, jbHost) && Own(x.headers)
    ensures NoHost(before + x.headers + after, jbHost)
  {
    forall h | h in before + x.headers + after
      ensures !IsHost(h, jbHost)
    {
      assert h in before || h in x.headers || h in after;
    }
  }

  /** What a receiver finds under the names the relay uses. */
  lemma OnWireValues(x: Outbound, before: seq<H>, after: seq<H>, jbHost: string, origin: string, name: Name)
    requires Plain(before, jbHost) && Plain(after, jbHost) && Own(x.headers)
    requires name in {ContentType, DjbSeqNo, DjbHttpCode, DjbHttpText, DjbSetCookie}
    ensures AllValues(OnWire(x, before, after, jbHost, origin).headers, name) == AllValues(x.headers, name)
  {
    OnWireOthers(x, before, after, jbHost, origin, name);
    Absent(before, name);
    Absent(after, name);
    assert [] + AllValues(x.headers, name) + [] == AllValues(x.headers, name);
  }

  /** Every header that the handlers are not about is on the wire, in order and as often as before. */
  lemma OnWireOthers(x: Outbound, before: seq<H>, after: seq<H>, jbHost: string, origin: string, name: Name)
    requires Plain(before, jbHost) && Plain(after, jbHost) && Own(x.headers)
    requires name !in {DjbServer, DjbCookie, Cookie, Origin}
    ensures AllValues(OnWire(x, before, after, jbHost, origin).headers, name)
         == AllValues(before, name) + AllValues(x.headers, name) + AllValues(after, name)
  {
    var all := before + x.headers + after;
    NoMatch(x, before, after, jbHost);
    WireIsClean(all, jbHost, origin);
    RenameKeepsAll(Filter(all, origin), DjbCookie, Cookie, name);
    FilterKeepsAll(all, origin, name);
    AllConcat(before + x.headers, after, name);
    AllConcat(before, x.headers, name);
  }

  /** The cookies a receiver finds: those of the browser, and among them the one of the request. */
  lemma OnWireCookies(x: Outbound, before: seq<H>, after: seq<H>, jbHost: string, origin: string)
    requires Plain(before, jbHost) && Plain(after, jbHost) && Own(x.headers)
    ensures var got := AllValues(OnWire(x, before, after, jbHost, origin).headers, Cookie);
            var browser := AllValues(before, Cookie) + AllValues(after, Cookie);
            if AllValues(x.headers, DjbCookie) == [] then got == browser
            else Inserted(browser, AllValues(x.headers, DjbCookie)[0], got)
  {
    var all := before + x.headers + after;
    NoMatch(x, before, after, jbHost);
    WireIsClean(all, jbHost, origin);
    RenameMoves(Filter(all, origin), DjbCookie, Cookie);
    FilterKeepsAll(all, origin, DjbCookie);
    FilterKeepsAll(all, origin, Cookie);
    AllInMiddle(before, x.headers, after, DjbCookie);
    AllConcat(before, x.headers, Cookie);
    AllConcat(before + x.headers, after, Cookie);
    Absent(x.headers, Cookie);
    assert AllValues(before, Cookie) + [] == AllValues(before, Cookie);
  }

  // ---------------------------------------------------------------- the request arrives as it was

  /** What the plugin finds under a name in the answer to its pull: each header occurs once. */
  lemma ForwardValue(r: ClientRequest, name: Name)
    ensures Got(Forward(r).headers, name)
         == if name == DjbUri then Some("http://" + r.hostname + r.rawuri)
            else if name == DjbMethod then Some(r.verb)
            else if name == DjbSeqNo then Some(PrintSeqNo(r.key))
            else if name == DjbCookie && r.cookie != "" then Some(r.cookie)
            else if name == ContentType then
              Some(if r.verb != "POST" || r.contentType == "" then HTML else r.contentType)
            else None
  {
    var a, b, c := H(DjbUri, "http://" + r.hostname + r.rawuri), H(DjbMethod, r.verb), H(DjbSeqNo, PrintSeqNo(r.key));
    var cookie := if r.cookie != "" then [H(DjbCookie, r.cookie)] else [];
    var contentType := H(ContentType, if r.verb != "POST" then HTML else PostType(r));
    var last := if r.verb != "POST" then [] else [contentType];
    AllInFive(a, b, c, cookie, last, name);
    if r.verb != "POST" {
      assert [a, b, c] + cookie + last == DjbHeaders(r);
      AllPrepend(contentType, DjbHeaders(r), name);
    }
  }

  /** What the plugin makes of a forwarded request: it throws for every method but two. */
  lemma TranslatedForward(r: ClientRequest)
    ensures Translated(Forward(r)).Thrown? <==> r.verb != "GET" && r.verb != "POST"
    ensures Translated(Forward(r)).Built? ==>
              var x := Translated(Forward(r)).request;
              && x.verb == r.verb && x.uri == "http://" + r.hostname + r.rawuri
              && x.body == (if r.verb == "POST" then Some(r.body) else None)
              && x.headers == MarkedHeaders(CookieOf(r), TypeOf(r))
  {
    ForwardValue(r, DjbUri);
    ForwardValue(r, DjbMethod);
    ForwardValue(r, DjbCookie);
    ForwardValue(r, ContentType);
    if r.verb == "GET" {
      var marks := [H(DjbServer, "true")] + Optional(DjbCookie, CookieOf(r));
      assert marks + [] == marks;
      assert |"GET"| == 3;
    }
  }

  function CookieOf(r: ClientRequest): Option<string> {
    if r.cookie != "" then Some(r.cookie) else None
  }

  function TypeOf(r: ClientRequest): Option<string> {
    if r.verb == "POST" then Some(PostType(r)) else None
  }

  /** The headers the plugin sets on a request to the stego server. */
  function MarkedHeaders(cookie: Option<string>, contentType: Option<string>): seq<H> {
    [H(DjbServer, "true")] + Optional(DjbCookie, cookie) + Optional(ContentType, contentType)
  }

  lemma MarkedValues(cookie: Option<string>, contentType: Option<string>)
    ensures var hs := MarkedHeaders(cookie, contentType);
            && Own(hs) && hs[0].name == DjbServer
            && AllValues(hs, DjbCookie) == (if cookie.Some? then [cookie.value] else [])
            && AllValues(hs, ContentType) == (if contentType.Some? then [contentType.value] else [])
  {
    var marks := [H(DjbServer, "true")] + Optional(DjbCookie, cookie);
    AllPrepend(H(DjbServer, "true"), Optional(DjbCookie, cookie), DjbCookie);
    AllPrepend(H(DjbServer, "true"), Optional(DjbCookie, cookie), ContentType);
    AllConcat(marks, Optional(ContentType, contentType), DjbCookie);
    AllConcat(marks, Optional(ContentType, contentType), ContentType);
    AllOfOptional(DjbCookie, cookie, DjbCookie);
    AllOfOptional(DjbCookie, cookie, ContentType);
    AllOfOptional(ContentType, contentType, DjbCookie);
    AllOfOptional(ContentType, contentType, ContentType);
  }

  /** The stego server gets the client's method, address, content type and body for GET and POST,
      and nothing for any other method. The client's cookie is among those it gets; it is the only
      one, as the client sent it, exactly when the browser added none. The daemon's marks and the
      extension's origin are off the wire, every other header the browser adds is on it, and the
      response to this request will be recognized. */
  lemma RequestTransparent(r: ClientRequest, before: seq<H>, after: seq<H>, jbHost: string, origin: string)
    requires Plain(before, jbHost) && Plain(after, jbHost)
    ensures Translated(Forward(r)).Thrown? <==> r.verb != "GET" && r.verb != "POST"
    ensures Translated(Forward(r)).Built? ==>
              var x := Translated(Forward(r)).request;
              var got := OnWire(x, before, after, jbHost, origin);
              && got.verb == r.verb && got.uri == "http://" + r.hostname + r.rawuri
              && CookiesArrive(r, before, after, got.headers)
              && ValueOf(got.headers, ContentType)
                 == (if r.verb != "POST" then None else if r.contentType != "" then Some(r.contentType) else Some(HTML))
              && got.body == (if r.verb == "POST" then Some(r.body) else None)
              && OnlyOurs(before, after, got.headers, origin)
              && IsRecorded(before + x.headers + after, jbHost)
  {
    TranslatedForward(r);
    if Translated(Forward(r)).Built? {
      var x := Translated(Forward(r)).request;
      MarkedValues(CookieOf(r), TypeOf(r));
      OnWireValues(x, before, after, jbHost, origin, ContentType);
      CookiesOfMarked(r, x, before, after, jbHost, origin);
      WireOfMarked(x, CookieOf(r), TypeOf(r), before, after, jbHost, origin);
    }
  }

  /** No mark of the relay and no origin of the extension on the wire, every other header of the
      browser on it. */
  ghost predicate OnlyOurs(before: seq<H>, after: seq<H>, wire: seq<H>, origin: string) {
    && (forall h :: h in wire ==>
          h.name != DjbServer && h.name != DjbCookie && (h.name == Origin ==> h.value != origin))
    && (forall h :: h in before + after && (h.name == Origin ==> h.value != origin) ==> h in wire)
  }

  ghost predicate CookiesArrive(r: ClientRequest, before: seq<H>, after: seq<H>, wire: seq<H>) {
    var browser, got := AllValues(before, Cookie) + AllValues(after, Cookie), AllValues(wire, Cookie);
    && (if r.cookie != "" then Inserted(browser, r.cookie, got) else got == browser)
    && (got == (if r.cookie != "" then [r.cookie] else []) <==> browser == [])
  }

  lemma InsertedAlone(xs: seq<string>, v: string, ys: seq<string>)
    requires Inserted(xs, v, ys)
    ensures ys == [v] <==> xs == []
  {
    var i :| 0 <= i <= |xs| && ys == xs[..i] + [v] + xs[i..];
  }

  lemma CookiesOfMarked(r: ClientRequest, x: Outbound, before: seq<H>, after: seq<H>, jbHost: string, origin: string)
    requires Plain(before, jbHost) && Plain(after, jbHost) && x.headers == MarkedHeaders(CookieOf(r), TypeOf(r))
    ensures CookiesArrive(r, before, after, OnWire(x, before, after, jbHost, origin).headers)
  {
    MarkedValues(CookieOf(r), TypeOf(r));
    OnWireCookies(x, before, after, jbHost, origin);
    if r.cookie != "" {
      InsertedAlone(AllValues(before, Cookie) + AllValues(after, Cookie), r.cookie,
                    AllValues(OnWire(x, before, after, jbHost, origin).headers, Cookie));
    }
  }

  lemma {:induction false} CountOfConcat(xs: seq<H>, ys: seq<H>, name: Name)
    ensures CountOf(xs + ys, name) == CountOf(xs, name) + CountOf(ys, name)
  {
    if xs == [] {
      assert xs + ys == ys;
    } else {
      assert xs + ys == [xs[0]] + (xs[1..] + ys);
      CountPrepend(xs[0], xs[1..] + ys, name);
      CountOfConcat(xs[1..], ys, name);
    }
  }

  /** Marks and origin off the wire, the browser's other headers on it. */
  lemma WireOfMarked(x: Outbound, cookie: Option<string>, contentType: Option<string>,
                     before: seq<H>, after: seq<H>, jbHost: string, origin: string)
    requires Plain(before, jbHost) && Plain(after, jbHost) && x.headers == MarkedHeaders(cookie, contentType)
    ensures var got := OnWire(x, before, after, jbHost, origin).headers;
            && OnlyOurs(before, after, got, origin)
            && IsRecorded(before + x.headers + after, jbHost)
  {
    var all := before + x.headers + after;
    var got := OnWire(x, before, after, jbHost, origin).headers;
    MarkedValues(cookie, contentType);
    NoMatch(x, before, after, jbHost);
    WireIsClean(all, jbHost, origin);
    OneCookie(x, cookie, contentType, before, after, jbHost);
    CountMeans(got, DjbCookie);
    forall h | h in before + after && (h.name == Origin ==> h.value != origin)
      ensures h in got
    {
      assert h in before || h in after;
      assert h in all && h.name != DjbServer && h.name != DjbCookie;
    }
    assert all[|before|].name == DjbServer;
  }

  lemma OneCookie(x: Outbound, cookie: Option<string>, contentType: Option<string>,
                  before: seq<H>, after: seq<H>, jbHost: string)
    requires Plain(before, jbHost) && Plain(after, jbHost) && x.headers == MarkedHeaders(cookie, contentType)
    ensures CountOf(before + x.headers + after, DjbCookie) <= 1
  {
    CountOfConcat(before + x.headers, after, DjbCookie);
    CountOfConcat(before, x.headers, DjbCookie);
    CountMeans(before, DjbCookie);
    CountMeans(after, DjbCookie);
    var server, c, t := [H(DjbServer, "true")], Optional(DjbCookie, cookie), Optional(ContentType, contentType);
    CountOfConcat(server + c, t, DjbCookie);
    CountOfConcat(server, c, DjbCookie);
    assert server[1..] == [] && (c != [] ==> c[1..] == []) && (t != [] ==> t[1..] == []);
  }

  // ---------------------------------------------------------------- the answer comes back as it was

  function NonEmpty(v: Option<string>): Option<string> {
    if v == Some("") then None else v
  }

  /** The server's response as the page sees it: the handler has renamed its first cookie. */
  function AtThePage(server: Reply): Reply {
    server.(headers := Incoming(server.headers, true))
  }

  /** What the page finds in place of the server's cookies: its own DJB-Set-Cookie headers, should
      it send any, with the first real cookie among them. */
  lemma AtThePageCookies(server: Reply)
    ensures var sent, own := AllValues(server.headers, SetCookie), AllValues(server.headers, DjbSetCookie);
            var got := AllValues(AtThePage(server).headers, DjbSetCookie);
            if sent == [] then got == own else Inserted(own, sent[0], got)
    ensures AllValues(AtThePage(server).headers, ContentType) == AllValues(server.headers, ContentType)
  {
    RenameMoves(server.headers, SetCookie, DjbSetCookie);
    RenameKeepsAll(server.headers, SetCookie, DjbSetCookie, ContentType);
  }

  function PageCookie(server: Reply): Option<string> {
    Got(AtThePage(server).headers, DjbSetCookie)
  }

  /** Without headers of that name from the server it is the first cookie. */
  lemma PageCookieIsFirst(server: Reply)
    requires AllValues(server.headers, DjbSetCookie) == []
    ensures PageCookie(server) == ValueOf(server.headers, SetCookie)
  {
    AtThePageCookies(server);
  }

  function PushHeaders(server: Reply, seqNo: string): seq<H> {
    [H(DjbSeqNo, seqNo), H(DjbHttpCode, Decimal.Print(HttpCode(server))), H(DjbHttpText, HttpText(server))]
    + Optional(DjbSetCookie, PageCookie(server)) + Optional(ContentType, Got(server.headers, ContentType))
  }

  lemma PushIsBuilt(server: Reply, seqNo: string, uri: string)
    ensures TranslatedBack(AtThePage(server), seqNo, uri)
         == if server.body == None then Thrown
            else Built(Outbound("POST", uri, PushHeaders(server, seqNo), server.body))
  {
    AtThePageCookies(server);
  }

  lemma PushHeadersAreOwn(server: Reply, seqNo: string)
    ensures Own(PushHeaders(server, seqNo))
  {
    var a, b := H(DjbSeqNo, seqNo), H(DjbHttpCode, Decimal.Print(HttpCode(server)));
    var c := H(DjbHttpText, HttpText(server));
    var cookie := Optional(DjbSetCookie, PageCookie(server));
    var contentType := Optional(ContentType, Got(server.headers, ContentType));
    forall h | h in PushHeaders(server, seqNo)
      ensures h.name != Host && h.name != Cookie
    {
      assert h in [a, b, c] || h in cookie || h in contentType;
    }
  }

  /** What the daemon finds under a name in the push. */
  lemma PushValue(server: Reply, seqNo: string, uri: string, before: seq<H>, after: seq<H>,
                  jbHost: string, origin: string, name: Name)
    requires Plain(before, jbHost) && Plain(after, jbHost) && server.body.Some?
    requires name in {ContentType, DjbSeqNo, DjbHttpCode, DjbHttpText, DjbSetCookie}
    ensures var x := TranslatedBack(AtThePage(server), seqNo, uri).request;
            var found := ValueOf(OnWire(x, before, after, jbHost, origin).headers, name);
            found == if name == DjbSeqNo then Some(seqNo)
                     else if name == DjbHttpCode then Some(Decimal.Print(HttpCode(server)))
                     else if name == DjbHttpText then Some(HttpText(server))
                     else if name == DjbSetCookie then PageCookie(server)
                     else Got(server.headers, ContentType)
  {
    PushIsBuilt(server, seqNo, uri);
    PushHeadersAreOwn(server, seqNo);
    var a, b := H(DjbSeqNo, seqNo), H(DjbHttpCode, Decimal.Print(HttpCode(server)));
    var c := H(DjbHttpText, HttpText(server));
    var cookie, contentType := PageCookie(server), Got(server.headers, ContentType);
    OnWireValues(TranslatedBack(AtThePage(server), seqNo, uri).request, before, after, jbHost, origin, name);
    AllInFive(a, b, c, Optional(DjbSetCookie, cookie), Optional(ContentType, contentType), name);
    AllOfOptional(DjbSetCookie, cookie, name);
    AllOfOptional(ContentType, contentType, name);
  }

  lemma PushArrives(server: Reply, seqNo: string, uri: string, before: seq<H>, after: seq<H>,
                    jbHost: string, origin: string)
    requires Plain(before, jbHost) && Plain(after, jbHost) && server.body.Some?
    ensures var got := OnWire(TranslatedBack(AtThePage(server), seqNo, uri).request, before, after, jbHost, origin);
            PushOf(got.headers) == Push(Decimal.Print(HttpCode(server)), HttpText(server), seqNo)
  {
    PushValue(server, seqNo, uri, before, after, jbHost, origin, DjbSeqNo);
    PushValue(server, seqNo, uri, before, after, jbHost, origin, DjbHttpCode);
    PushValue(server, seqNo, uri, before, after, jbHost, origin, DjbHttpText);
  }

  lemma RestArrives(server: Reply, seqNo: string, uri: string, before: seq<H>, after: seq<H>,
                    jbHost: string, origin: string)
    requires Plain(before, jbHost) && Plain(after, jbHost) && server.body.Some?
    ensures var got := OnWire(TranslatedBack(AtThePage(server), seqNo, uri).request, before, after, jbHost, origin);
            && ValueOf(got.headers, DjbSetCookie) == PageCookie(server)
            && ValueOf(got.headers, ContentType) == Got(server.headers, ContentType)
            && got.body == server.body && got.verb == "POST" && got.uri == uri
  {
    PushValue(server, seqNo, uri, before, after, jbHost, origin, DjbSetCookie);
    PushValue(server, seqNo, uri, before, after, jbHost, origin, ContentType);
    PushIsBuilt(server, seqNo, uri);
  }

  /** The server's answer goes back to the daemon exactly when it has a body object; the push
      names the exchange it belongs to, and gives the client the server's status (555 for a
      request that could not be made), reason, content type and body, and the cookie the page
      found: unless the server sends one under the plugin's own name, its first one, if that is
      not empty. The daemon misses something in it exactly when the server gave no reason. */
  lemma ResponseTransparent(server: Reply, seqNo: string, uri: string,
                            before: seq<H>, after: seq<H>, jbHost: string, origin: string)
    requires Plain(before, jbHost) && Plain(after, jbHost)
    ensures TranslatedBack(AtThePage(server), seqNo, uri).Built? <==> server.body.Some?
    ensures server.body.Some? ==>
              var got := OnWire(TranslatedBack(AtThePage(server), seqNo, uri).request, before, after, jbHost, origin);
              var push, client := PushOf(got.headers), ClientGets(got);
              && got.verb == "POST" && got.uri == uri && push.seqno == seqNo
              && push.httpcode == Decimal.Print(if server.status == 0 then 555 else server.status)
              && push.httptext == (if server.status == 0 then "Request not made" else server.reason)
              && (push.httpcode == "" || push.httptext == "" <==> server.status != 0 && server.reason == "")
              && client.status == (if server.status == 0 then 555 else server.status)
              && client.reason == (if server.status == 0 then "Request not made" else server.reason)
              && client.setCookie == NonEmpty(PageCookie(server))
              && client.contentType == Got(server.headers, ContentType) && client.body == server.body
    ensures server.body.Some? && AllValues(server.headers, DjbSetCookie) == [] ==>
              var got := OnWire(TranslatedBack(AtThePage(server), seqNo, uri).request, before, after, jbHost, origin);
              var sent := AllValues(server.headers, SetCookie);
              ClientGets(got).setCookie == if sent == [] || sent[0] == "" then None else Some(sent[0])
  {
    if server.body.Some? {
      PushArrives(server, seqNo, uri, before, after, jbHost, origin);
      RestArrives(server, seqNo, uri, before, after, jbHost, origin);
      Decimal.AtoiOfPrint(HttpCode(server));
      assert |NOT_MADE| == 16;
      if AllValues(server.headers, DjbSetCookie) == [] {
        PageCookieIsFirst(server);
      }
    }
  }

  // ---------------------------------------------------------------- all cookies

  /** Joined with another value, a value has become longer. */
  lemma {:induction false} JoinIsLonger(vs: seq<string>, i: nat)
    requires |vs| >= 2 && i < |vs|
    ensures |Join(vs)| > |vs[i]|
    decreases |vs|
  {
    if |vs| > 2 && i > 0 {
      JoinIsLonger(vs[1..], i - 1);
    }
  }

  lemma JoinOfInserted(xs: seq<string>, v: string, ys: seq<string>)
    requires Inserted(xs, v, ys)
    ensures |ys| == |xs| + 1 && (Join(ys) == v <==> xs == [])
  {
    var i :| 0 <= i <= |xs| && ys == xs[..i] + [v] + xs[i..];
    assert ys[i] == v;
    if xs != [] {
      JoinIsLonger(ys, i);
    }
  }

  lemma {:induction false} EmptyJoin(vs: seq<string>)
    requires vs != []
    ensures Join(vs) == "" <==> vs == [""]
  {
  }

  /** The cookies of the server as the client gets them. */
  function ClientCookies(server: Reply): seq<string> {
    var cookie := NonEmpty(PageCookie(server));
    if cookie.Some? then [cookie.value] else []
  }

  /** When they are all of them: none, and nothing else that could pass for one; or one that is not
      empty, and nothing joined to it. */
  predicate CookiesPass(sent: seq<string>, own: seq<string>) {
    if sent == [] then own == [] || own == [""] else |sent| == 1 && sent[0] != "" && own == []
  }

  lemma CookiesPassExactly(server: Reply)
    ensures var sent, own := AllValues(server.headers, SetCookie), AllValues(server.headers, DjbSetCookie);
            ClientCookies(server) == sent <==> CookiesPass(sent, own)
  {
    var sent, own := AllValues(server.headers, SetCookie), AllValues(server.headers, DjbSetCookie);
    var got := AllValues(AtThePage(server).headers, DjbSetCookie);
    AtThePageCookies(server);
    if sent == [] {
      if got != [] {
        EmptyJoin(got);
      }
    } else {
      JoinOfInserted(own, sent[0], got);
    }
  }

  /** The client sees every cookie the server set exactly when there is at most one, not empty, and
      the server sends no header of the name the plugin uses for it. */
  lemma AllCookiesArrive(server: Reply, seqNo: string, uri: string,
                         before: seq<H>, after: seq<H>, jbHost: string, origin: string)
    requires Plain(before, jbHost) && Plain(after, jbHost) && server.body.Some?
    ensures var got := OnWire(TranslatedBack(AtThePage(server), seqNo, uri).request, before, after, jbHost, origin);
            var sent, cookie := AllValues(server.headers, SetCookie), ClientGets(got).setCookie;
            (if cookie.Some? then [cookie.value] else []) == sent
            <==> CookiesPass(sent, AllValues(server.headers, DjbSetCookie))
  {
    ResponseTransparent(server, seqNo, uri, before, after, jbHost, origin);
    CookiesPassExactly(server);
  }

  /** Whatever the exchange did meanwhile: while the request is outstanding, the push made from
      its server's answer completes this request and no other, unless the reason is missing. */
  lemma AnswerFindsItsClient(s: State, i: nat, r: ClientRequest, server: Reply, uri: string,
                             before: seq<H>, after: seq<H>, jbHost: string, origin: string)
    requires Conserved(s) && i < |s.out| && s.out[i].key == r.key
    requires r.key.id < BOUND && r.key.reqid < BOUND
    requires Plain(before, jbHost) && Plain(after, jbHost) && server.body.Some?
    ensures var seqNo := Got(Forward(r).headers, DjbSeqNo);
            && seqNo.Some?
            && var x := TranslatedBack(AtThePage(server), seqNo.value, uri).request;
               var got := OnWire(x, before, after, jbHost, origin);
               Find(s.out, PushOf(got.headers))
               == if server.status != 0 && server.reason == "" then Refused(504) else Found(i)
  {
    ForwardValue(r, DjbSeqNo);
    var seqNo := PrintSeqNo(r.key);
    ResponseTransparent(server, seqNo, uri, before, after, jbHost, origin);
    var x := TranslatedBack(AtThePage(server), seqNo, uri).request;
    var push := PushOf(OnWire(x, before, after, jbHost, origin).headers);
    if !(server.status != 0 && server.reason == "") {
      EchoFindsItsRequest(s, i, push);
    }
  }
}
