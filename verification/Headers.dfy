/** The plugin's header handlers (plugin/jumpbox_plugin_chrome/background.js): a reverse loop that
    splices a list of header objects in place and renames one of them, and the set of requests
    whose response is to be renamed too. */
module Headers {
  import opened Collections

  /** Header names: those some branch compares with, and all others. */
  datatype Name =
    | Host | Origin | Cookie | SetCookie | ContentType
    | DjbServer | DjbCookie | DjbSetCookie
    | DjbUri | DjbMethod | DjbSeqNo | DjbHttpCode | DjbHttpText
    | Other(text: string)

  /** A header as a value. */
  datatype H = H(name: Name, value: string)

  /** A header object, as the browser passes it. */
  class Header {
    var name: Name
    const value: string

    constructor (name: Name, value: string)
      ensures this.name == name && this.value == value
    {
      this.name, this.value := name, value;
    }

    ghost function View(): H
      reads this
    {
      H(name, value)
    }
  }

  ghost function Views(hs: seq<Header>): (vs: seq<H>)
    reads hs
    ensures |vs| == |hs| && forall i :: 0 <= i < |hs| ==> vs[i] == hs[i].View()
  {
    seq(|hs|, i requires 0 <= i < |hs| reads hs => hs[i].View())
  }

  // ---------------------------------------------------------------- what the loops compute

  predicate IsHost(h: H, jbHost: string) { h.name == Host && h.value == jbHost }

  /** A header that goes out: not the daemon's mark, not the extension's own origin. */
  predicate Kept(h: H, origin: string) {
    h.name != DjbServer && !(h.name == Origin && h.value == origin)
  }

  /** How many headers are in front of, and including, the last one that matches the Host test. */
  function Cut(hs: seq<H>, jbHost: string): (k: nat)
    ensures k <= |hs|
    ensures k > 0 ==> IsHost(hs[k - 1], jbHost)
    ensures forall i :: k <= i < |hs| ==> !IsHost(hs[i], jbHost)
  {
    if hs == [] then 0
    else if IsHost(hs[|hs| - 1], jbHost) then |hs|
    else Cut(hs[..|hs| - 1], jbHost)
  }

  function Filter(hs: seq<H>, origin: string): seq<H> {
    if hs == [] then []
    else if Kept(hs[0], origin) then [hs[0]] + Filter(hs[1..], origin)
    else Filter(hs[1..], origin)
  }

  /** The list without the headers to be removed, as far as the scan gets. */
  function Swept(hs: seq<H>, jbHost: string, origin: string): seq<H> {
    var k := Cut(hs, jbHost);
    hs[..k] + Filter(hs[k..], origin)
  }

  /** The first header with this name. */
  function IndexOfName(hs: seq<H>, name: Name): (i: nat)
    ensures i <= |hs|
    ensures i < |hs| ==> hs[i].name == name
    ensures forall j :: 0 <= j < i ==> hs[j].name != name
  {
    if hs == [] || hs[0].name == name then 0 else 1 + IndexOfName(hs[1..], name)
  }

  /** The list with its first header of one name renamed. */
  function RenameFirst(hs: seq<H>, from: Name, to: Name): seq<H> {
    var i := IndexOfName(hs, from);
    if i < |hs| then hs[i := H(to, hs[i].value)] else hs
  }

  /** The headers that go out. Those in front of a matching Host header are not looked at. */
  function Outgoing(hs: seq<H>, jbHost: string, origin: string): seq<H> {
    var left := Swept(hs, jbHost, origin);
    if Cut(hs, jbHost) > 0 then left else RenameFirst(left, DjbCookie, Cookie)
  }

  /** What the server's answer looks like to the page that asked for it. */
  function Incoming(hs: seq<H>, recorded: bool): seq<H> {
    if recorded then RenameFirst(hs, SetCookie, DjbSetCookie) else hs
  }

  predicate Marked(hs: seq<H>) {
    exists i :: 0 <= i < |hs| && hs[i].name == DjbServer
  }

  predicate IsRecorded(hs: seq<H>, jbHost: string) {
    Marked(hs[Cut(hs, jbHost)..])
  }

  // ---------------------------------------------------------------- which responses are renamed

  /** What the handlers were called for. `recorded`: the request went to the stego server. */
  datatype Event = Sent(id: nat, recorded: bool) | Received(id: nat)

  /** What one call does to the set of requests that are on their way to the stego server. */
  function After(ids: set<nat>, e: Event): set<nat> {
    match e
    case Sent(id, recorded) => if recorded then ids + {id} else ids
    case Received(id) => ids - {id}
  }

  function Awaited(log: seq<Event>): set<nat> {
    if log == [] then {} else After(Awaited(log[..|log| - 1]), log[|log| - 1])
  }

  /** The request was recorded by event `i` and has had no response since. */
  predicate OpenSince(log: seq<Event>, i: nat, id: nat) {
    i < |log| && log[i] == Sent(id, true) && forall j :: i < j < |log| ==> log[j] != Received(id)
  }

  lemma {:induction false} AwaitedMeans(log: seq<Event>, id: nat)
    ensures id in Awaited(log) <==> exists i: nat :: OpenSince(log, i, id)
  {
    if log != [] {
      var init, last := log[..|log| - 1], log[|log| - 1];
      AwaitedMeans(init, id);
      if i: nat :| OpenSince(log, i, id) && i < |init| {
        assert OpenSince(init, i, id);
      }
      if last == Sent(id, true) {
        assert OpenSince(log, |init|, id);
      } else if last != Received(id) && id in Awaited(init) {
        var i: nat :| OpenSince(init, i, id);
        assert OpenSince(log, i, id);
      }
    }
  }

  // ---------------------------------------------------------------- the loop, turn by turn

  /** The objects from index `i` on whose headers are kept; `vs` holds the values of all. */
  function Survivors(hs: seq<Header>, vs: seq<H>, i: nat, origin: string): seq<Header>
    requires |hs| == |vs|
    decreases |vs| - i
  {
    if i >= |vs| then []
    else if Kept(vs[i], origin) then [hs[i]] + Survivors(hs, vs, i + 1, origin)
    else Survivors(hs, vs, i + 1, origin)
  }

  /** The first of them with the cookie's name. */
  function CookieFrom(hs: seq<Header>, vs: seq<H>, i: nat): Header?
    requires |hs| == |vs|
    decreases |vs| - i
  {
    if i >= |vs| then null
    else if vs[i].name == DjbCookie then hs[i]
    else CookieFrom(hs, vs, i + 1)
  }

  predicate MarkedFrom(vs: seq<H>, i: nat)
    decreases |vs| - i
  {
    i < |vs| && (vs[i].name == DjbServer || MarkedFrom(vs, i + 1))
  }

  lemma {:induction false} SurvivorsShow(hs: seq<Header>, vs: seq<H>, i: nat, origin: string)
    requires Views(hs) == vs && i <= |vs|
    ensures Views(Survivors(hs, vs, i, origin)) == Filter(vs[i..], origin)
    decreases |vs| - i
  {
    if i < |vs| {
      var rest := Survivors(hs, vs, i + 1, origin);
      SurvivorsShow(hs, vs, i + 1, origin);
      assert vs[i..][1..] == vs[i + 1..] && ([hs[i]] + rest)[1..] == rest;
    }
  }

  lemma {:induction false} SurvivorsDistinct(hs: seq<Header>, vs: seq<H>, i: nat, origin: string)
    requires |hs| == |vs| && i <= |vs| && NoDuplicates(hs)
    ensures NoDuplicates(Survivors(hs, vs, i, origin))
    ensures forall h :: h in Survivors(hs, vs, i, origin) ==> h in hs[i..]
    decreases |vs| - i
  {
    if i < |vs| {
      SurvivorsDistinct(hs, vs, i + 1, origin);
      assert hs[i] !in hs[i + 1..];
      assert hs[i..] == [hs[i]] + hs[i + 1..];
    }
  }

  /** They are the objects behind `i` that are neither the daemon's mark nor the own origin. */
  lemma {:induction false} SurvivorsMeans(hs: seq<Header>, vs: seq<H>, i: nat, origin: string)
    requires |hs| == |vs| && i <= |vs|
    ensures forall h :: h in Survivors(hs, vs, i, origin) <==>
              exists j :: i <= j < |hs| && hs[j] == h && vs[j].name != DjbServer
                          && (vs[j].name == Origin ==> vs[j].value != origin)
    decreases |vs| - i
  {
    if i < |vs| {
      SurvivorsMeans(hs, vs, i + 1, origin);
    }
  }

  /** Where the cookie is among the objects left. */
  lemma {:induction false} CookieSurvives(hs: seq<Header>, vs: seq<H>, i: nat, origin: string)
    requires |hs| == |vs| && i <= |vs|
    ensures var left, k := Survivors(hs, vs, i, origin), IndexOfName(Filter(vs[i..], origin), DjbCookie);
            |left| == |Filter(vs[i..], origin)|
            && CookieFrom(hs, vs, i) == if k < |left| then left[k] else null
    decreases |vs| - i
  {
    if i < |vs| {
      CookieSurvives(hs, vs, i + 1, origin);
      assert vs[i..][1..] == vs[i + 1..];
      var kept := Filter(vs[i + 1..], origin);
      assert ([vs[i]] + kept)[1..] == kept;
    }
  }

  lemma MarkedPrepend(h: H, hs: seq<H>)
    ensures Marked([h] + hs) <==> h.name == DjbServer || Marked(hs)
  {
    var all := [h] + hs;
    assert all[0] == h && forall i :: 0 < i < |all| ==> all[i] == hs[i - 1];
    if Marked(hs) {
      var j :| 0 <= j < |hs| && hs[j].name == DjbServer;
      assert all[j + 1] == hs[j];
    }
  }

  lemma {:induction false} MarkedBehind(vs: seq<H>, i: nat)
    requires i <= |vs|
    ensures MarkedFrom(vs, i) <==> Marked(vs[i..])
    decreases |vs| - i
  {
    if i < |vs| {
      MarkedBehind(vs, i + 1);
      MarkedPrepend(vs[i], vs[i + 1..]);
      assert vs[i..] == [vs[i]] + vs[i + 1..];
    }
  }

  /** One splice. */
  lemma SpliceTurn<T>(xs: seq<T>, i: nat, tail: seq<T>)
    requires i < |xs|
    ensures (xs[..i + 1] + tail)[i] == xs[i]
    ensures RemoveAt(xs[..i + 1] + tail, i) == xs[..i] + tail
    ensures xs[..i + 1] + tail == xs[..i] + ([xs[i]] + tail)
  {
  }

  lemma SweptShow(hs: seq<Header>, vs: seq<H>, k: nat, jbHost: string, origin: string)
    requires Views(hs) == vs && k == Cut(vs, jbHost)
    ensures Views(hs[..k] + Survivors(hs, vs, k, origin)) == Swept(vs, jbHost, origin)
    ensures MarkedFrom(vs, k) <==> IsRecorded(vs, jbHost)
  {
    SurvivorsShow(hs, vs, k, origin);
    MarkedBehind(vs, k);
  }

  /** The whole list was scanned: which of the objects left is the cookie, if any. */
  lemma CookieSlot(hs: seq<Header>, vs: seq<H>, jbHost: string, origin: string)
    requires NoDuplicates(hs) && |hs| == |vs| && Cut(vs, jbHost) == 0
    ensures var left, i := hs[..0] + Survivors(hs, vs, 0, origin), IndexOfName(Swept(vs, jbHost, origin), DjbCookie);
            && |left| == |Swept(vs, jbHost, origin)| && NoDuplicates(left)
            && if i < |left| then CookieFrom(hs, vs, 0) == left[i] && left[i] in hs
               else CookieFrom(hs, vs, 0) == null
  {
    assert vs[..0] + Filter(vs[0..], origin) == Filter(vs[0..], origin);
    assert hs[..0] + Survivors(hs, vs, 0, origin) == Survivors(hs, vs, 0, origin) && hs[0..] == hs;
    CookieSurvives(hs, vs, 0, origin);
    SurvivorsDistinct(hs, vs, 0, origin);
  }

  predicate NoHostFrom(vs: seq<H>, i: nat, jbHost: string)
    decreases |vs| - i
  {
    i >= |vs| || (!IsHost(vs[i], jbHost) && NoHostFrom(vs, i + 1, jbHost))
  }

  lemma {:induction false} NoHostBehind(vs: seq<H>, i: nat, j: nat, jbHost: string)
    requires NoHostFrom(vs, i, jbHost) && i <= j < |vs|
    ensures !IsHost(vs[j], jbHost)
    decreases j - i
  {
    if i < j {
      NoHostBehind(vs, i + 1, j, jbHost);
    }
  }

  lemma CutIs(vs: seq<H>, jbHost: string, k: nat)
    requires k <= |vs| && (k > 0 ==> IsHost(vs[k - 1], jbHost)) && NoHostFrom(vs, k, jbHost)
    ensures Cut(vs, jbHost) == k
  {
    if Cut(vs, jbHost) > k {
      NoHostBehind(vs, k, Cut(vs, jbHost) - 1, jbHost);
    }
  }

  // ---------------------------------------------------------------- the handlers

  class Details {
    const requestId: nat
    var headers: seq<Header>

    constructor (requestId: nat, headers: seq<Header>)
      ensures this.requestId == requestId && this.headers == headers
    {
      this.requestId, this.headers := requestId, headers;
    }
  }

  class Handlers {
    const jbHost: string
    const origin: string
    var serverRequests: set<nat>

    constructor (jbHost: string, origin: string)
      ensures this.jbHost == jbHost && this.origin == origin && serverRequests == {}
    {
      this.jbHost, this.origin, serverRequests := jbHost, origin, {};
    }

    /** A header object of the list gets another name. */
    method Rename(h: Header, to: Name, ghost hs: seq<Header>, ghost i: nat)
      requires NoDuplicates(hs) && i < |hs| && hs[i] == h
      modifies h
      ensures Views(hs) == old(Views(hs))[i := H(to, h.value)]
    {
      h.name := to;
      assert forall j :: 0 <= j < |hs| && j != i ==> hs[j].View() == old(hs[j].View());
    }

    /** The loop: it goes down to a matching Host header, or through the whole list; `k` is how far. */
    method Sweep(details: Details) returns (toJumpbox: bool, cookie: Header?, ghost k: nat)
      modifies this`serverRequests, details`headers
      ensures var hs, vs := old(details.headers), old(Views(details.headers));
              && k <= |hs| && k == Cut(vs, jbHost) && toJumpbox == (k > 0)
              && details.headers == hs[..k] + Survivors(hs, vs, k, origin)
              && cookie == CookieFrom(hs, vs, k)
              && serverRequests == After(old(serverRequests), Sent(details.requestId, MarkedFrom(vs, k)))
      ensures forall h :: h in details.headers[k..] <==>
                exists j :: k <= j < |old(details.headers)| && old(details.headers)[j] == h
                            && old(Views(details.headers))[j].name != DjbServer
                            && (old(Views(details.headers))[j].name == Origin ==>
                                  old(Views(details.headers))[j].value != origin)
    {
      ghost var hs, vs := details.headers, Views(details.headers);
      var index := |details.headers| - 1;
      ghost var marked := serverRequests + {details.requestId};
      assert marked + {details.requestId} == marked;
      toJumpbox, cookie := false, null;
      while index >= 0
        invariant -1 <= index < |hs|
        invariant details.headers == hs[..index + 1] + Survivors(hs, vs, index + 1, origin)
        invariant forall i :: 0 <= i < |hs| ==> H(hs[i].name, hs[i].value) == vs[i]
        invariant cookie == CookieFrom(hs, vs, index + 1)
        invariant serverRequests == if MarkedFrom(vs, index + 1) then marked else old(serverRequests)
        invariant NoHostFrom(vs, index + 1, jbHost)
        invariant !toJumpbox
      {
        SpliceTurn(hs, index, Survivors(hs, vs, index + 1, origin));
        var header := details.headers[index];
        assert H(header.name, header.value) == vs[index];
        if header.name == Host && header.value == jbHost {
          toJumpbox := true;
          break;
        }
        if header.name == DjbServer {
          serverRequests := serverRequests + {details.requestId};
          details.headers := RemoveAt(details.headers, index);
        } else if header.name == Origin {
          if header.value == origin {
            details.headers := RemoveAt(details.headers, index);
          }
        } else if header.name == DjbCookie {
          cookie := header;
        }
        index := index - 1;
      }
      k := index + 1;
      CutIs(vs, jbHost, k);
      SurvivorsMeans(hs, vs, k, origin);
      assert details.headers[k..] == Survivors(hs, vs, k, origin);
    }

    /** The same, in terms of what the objects show. */
    method Scan(details: Details) returns (toJumpbox: bool, cookie: Header?)
      requires NoDuplicates(details.headers)
      modifies this`serverRequests, details`headers
      ensures toJumpbox == (Cut(old(Views(details.headers)), jbHost) > 0)
      ensures Views(details.headers) == Swept(old(Views(details.headers)), jbHost, origin)
      ensures serverRequests == After(old(serverRequests),
                                      Sent(details.requestId, IsRecorded(old(Views(details.headers)), jbHost)))
      ensures !toJumpbox ==>
                && NoDuplicates(details.headers)
                && var i := IndexOfName(Views(details.headers), DjbCookie);
                   if i < |details.headers| then cookie == details.headers[i] && cookie in old(details.headers)
                   else cookie == null
    {
      ghost var hs, vs := details.headers, Views(details.headers);
      ghost var k;
      toJumpbox, cookie, k := Sweep(details);
      SweptShow(hs, vs, k, jbHost, origin);
      if !toJumpbox {
        CookieSlot(hs, vs, jbHost, origin);
      }
    }

    method OnBeforeSendHeaders(details: Details)
      requires NoDuplicates(details.headers)
      modifies this`serverRequests, details`headers, details.headers
      ensures Views(details.headers) == Outgoing(old(Views(details.headers)), jbHost, origin)
      ensures serverRequests == After(old(serverRequests),
                                      Sent(details.requestId, IsRecorded(old(Views(details.headers)), jbHost)))
      ensures NoHost(old(Views(details.headers)), jbHost) ==>
                && Clean(old(Views(details.headers)), Views(details.headers), origin)
                && serverRequests == old(serverRequests)
                                     + if HasMark(old(Views(details.headers))) then {details.requestId} else {}
    {
      OutgoingIsClean(Views(details.headers), jbHost, origin);
      var toJumpbox, cookie := Scan(details);
      if !toJumpbox {
        if cookie != null {
          Rename(cookie, Cookie, details.headers, IndexOfName(Views(details.headers), DjbCookie));
        }
      }
    }

    /** The loop of the other handler: it stops at the first cookie. */
    method RenameSetCookie(details: Details)
      requires NoDuplicates(details.headers)
      modifies details.headers
      ensures Views(details.headers) == RenameFirst(old(Views(details.headers)), SetCookie, DjbSetCookie)
    {
      ghost var vs := Views(details.headers);
      var index := 0;
      while index < |details.headers|
        invariant index <= |details.headers| && Views(details.headers) == vs
        invariant forall i :: 0 <= i < index ==> vs[i].name != SetCookie
      {
        var header := details.headers[index];
        assert header.View() == vs[index];
        if header.name == SetCookie {
          IndexIs(vs, SetCookie, index);
          Rename(header, DjbSetCookie, details.headers, index);
          break;
        }
        index := index + 1;
      }
    }

    method OnHeadersReceived(details: Details)
      requires NoDuplicates(details.headers)
      modifies this`serverRequests, details.headers
      ensures serverRequests == After(old(serverRequests), Received(details.requestId))
      ensures Views(details.headers) == Incoming(old(Views(details.headers)),
                                                 details.requestId in old(serverRequests))
      ensures serverRequests == old(serverRequests) - {details.requestId}
      ensures if details.requestId in old(serverRequests)
              then FirstRenamed(old(Views(details.headers)), Views(details.headers), SetCookie, DjbSetCookie)
              else Views(details.headers) == old(Views(details.headers))
    {
      RenameFirstMeans(Views(details.headers), SetCookie, DjbSetCookie);
      if details.requestId in serverRequests {
        serverRequests := serverRequests - {details.requestId};
        RenameSetCookie(details);
      }
    }
  }

  lemma IndexIs(hs: seq<H>, name: Name, k: nat)
    requires k < |hs| && hs[k].name == name && forall i :: 0 <= i < k ==> hs[i].name != name
    ensures IndexOfName(hs, name) == k
  {
  }

  // ---------------------------------------------------------------- what goes over the wire

  function CountOf(hs: seq<H>, name: Name): nat {
    if hs == [] then 0 else (if hs[0].name == name then 1 else 0) + CountOf(hs[1..], name)
  }

  lemma {:induction false} CountMeans(hs: seq<H>, name: Name)
    ensures CountOf(hs, name) == 0 <==> forall h :: h in hs ==> h.name != name
    ensures CountOf(hs, name) == 0 <==> IndexOfName(hs, name) == |hs|
  {
    if hs != [] {
      CountMeans(hs[1..], name);
    }
  }

  lemma {:induction false} FilterMeans(hs: seq<H>, origin: string)
    ensures forall h :: h in Filter(hs, origin) <==> h in hs && Kept(h, origin)
    ensures CountOf(Filter(hs, origin), DjbCookie) == CountOf(hs, DjbCookie)
    ensures CountOf(Filter(hs, origin), Cookie) == CountOf(hs, Cookie)
  {
    if hs != [] {
      FilterMeans(hs[1..], origin);
      var rest := Filter(hs[1..], origin);
      assert ([hs[0]] + rest)[1..] == rest;
    }
  }

  lemma RenamePrepend(h: H, hs: seq<H>, from: Name, to: Name)
    ensures RenameFirst([h] + hs, from, to)
         == if h.name == from then [H(to, h.value)] + hs else [h] + RenameFirst(hs, from, to)
  {
    IndexAfterPrepend(h, hs, from);
  }

  lemma IndexAfterPrepend(h: H, hs: seq<H>, name: Name)
    ensures IndexOfName([h] + hs, name) == if h.name == name then 0 else 1 + IndexOfName(hs, name)
  {
    assert ([h] + hs)[1..] == hs;
  }

  lemma CountPrepend(h: H, hs: seq<H>, name: Name)
    ensures CountOf([h] + hs, name) == (if h.name == name then 1 else 0) + CountOf(hs, name)
  {
    assert ([h] + hs)[1..] == hs;
  }

  lemma {:induction false} RenameCounts(hs: seq<H>, from: Name, to: Name)
    requires from != to
    ensures var got := RenameFirst(hs, from, to);
            if CountOf(hs, from) == 0 then got == hs
            else CountOf(got, from) == CountOf(hs, from) - 1 && CountOf(got, to) == CountOf(hs, to) + 1
  {
    CountMeans(hs, from);
    if hs != [] {
      var h, rest := hs[0], hs[1..];
      assert hs == [h] + rest;
      RenameCounts(rest, from, to);
      RenamePrepend(h, rest, from, to);
      var tail := if h.name == from then rest else RenameFirst(rest, from, to);
      var first := if h.name == from then H(to, h.value) else h;
      CountPrepend(first, tail, from);
      CountPrepend(first, tail, to);
    }
  }

  lemma {:induction false} NoMatchNoCut(hs: seq<H>, jbHost: string)
    requires NoHost(hs, jbHost)
    ensures Cut(hs, jbHost) == 0
  {
    if Cut(hs, jbHost) > 0 {
      assert IsHost(hs[Cut(hs, jbHost) - 1], jbHost);
    }
  }

  /** Header by header: the first of one name has another, everything else is as before. */
  ghost predicate FirstRenamed(was: seq<H>, now: seq<H>, from: Name, to: Name) {
    && |now| == |was|
    && forall i :: 0 <= i < |was| ==>
         now[i] == if was[i].name == from && (forall j :: 0 <= j < i ==> was[j].name != from)
                   then H(to, was[i].value) else was[i]
  }

  lemma RenameFirstMeans(hs: seq<H>, from: Name, to: Name)
    ensures FirstRenamed(hs, RenameFirst(hs, from, to), from, to)
  {
  }

  /** What renaming does to the members of a list. */
  lemma RenameMembers(hs: seq<H>, from: Name, to: Name)
    ensures forall h :: h in RenameFirst(hs, from, to) ==> h in hs || (h.name == to && H(from, h.value) in hs)
    ensures forall h :: h in hs && h.name != from ==> h in RenameFirst(hs, from, to)
  {
    var i, got := IndexOfName(hs, from), RenameFirst(hs, from, to);
    if i < |hs| {
      assert hs[i] == H(from, hs[i].value);
      assert forall j :: 0 <= j < |hs| && j != i ==> got[j] == hs[j];
    }
  }

  ghost predicate NoHost(hs: seq<H>, jbHost: string) {
    forall h :: h in hs && h.name == Host ==> h.value != jbHost
  }

  ghost predicate HasMark(hs: seq<H>) {
    exists h :: h in hs && h.name == DjbServer
  }

  /** What a list should come to: no mark of the daemon and no origin of the extension, every other
      header there, and nothing new but a cookie under its real name. */
  ghost predicate Clean(was: seq<H>, now: seq<H>, origin: string) {
    && (forall h :: h in now ==> h.name != DjbServer && (h.name == Origin ==> h.value != origin))
    && (forall h :: h in was && h.name != DjbServer && h.name != DjbCookie && (h.name == Origin ==> h.value != origin)
                    ==> h in now)
    && (forall h :: h in now ==> h in was || (h.name == Cookie && H(DjbCookie, h.value) in was))
  }

  lemma OutgoingIsClean(hs: seq<H>, jbHost: string, origin: string)
    ensures NoHost(hs, jbHost) ==>
              Clean(hs, Outgoing(hs, jbHost, origin), origin) && (IsRecorded(hs, jbHost) <==> HasMark(hs))
  {
    if NoHost(hs, jbHost) {
      WireIsClean(hs, jbHost, origin);
    }
  }

  /** No Host header matches: the daemon's mark and the extension's own origin are gone, every
      other header is there, and the one cookie goes out under its real name. What the extension
      added is off the wire exactly when there was at most one cookie to rename. */
  lemma WireIsClean(hs: seq<H>, jbHost: string, origin: string)
    requires NoHost(hs, jbHost)
    ensures var got := Outgoing(hs, jbHost, origin);
            && got == RenameFirst(Filter(hs, origin), DjbCookie, Cookie)
            && Clean(hs, got, origin)
            && (CountOf(got, DjbCookie) == 0 <==> CountOf(hs, DjbCookie) <= 1)
            && CountOf(got, Cookie) == CountOf(hs, Cookie) + if CountOf(hs, DjbCookie) == 0 then 0 else 1
    ensures IsRecorded(hs, jbHost) <==> HasMark(hs)
  {
    NoMatchNoCut(hs, jbHost);
    assert hs[0..] == hs && hs[..0] + Filter(hs, origin) == Filter(hs, origin);
    FilterMeans(hs, origin);
    RenameMembers(Filter(hs, origin), DjbCookie, Cookie);
    RenameCounts(Filter(hs, origin), DjbCookie, Cookie);
  }

  /** What the loop does when it meets a matching Host header, the last one being number `k`
      (counted from one): the headers up to it are not looked at, no cookie is renamed, and
      behind it the marks and the own origin are gone and everything else is there. */
  lemma HostStopsTheLoop(hs: seq<H>, k: nat, jbHost: string, origin: string)
    requires 0 < k <= |hs| && hs[k - 1] == H(Host, jbHost)
    requires forall i :: k <= i < |hs| && hs[i].name == Host ==> hs[i].value != jbHost
    ensures var got := Outgoing(hs, jbHost, origin);
            && k <= |got| && got[..k] == hs[..k]
            && (forall h :: h in got[k..] <==> h in hs[k..] && h.name != DjbServer
                                               && (h.name == Origin ==> h.value != origin))
    ensures IsRecorded(hs, jbHost) <==> exists h :: h in hs[k..] && h.name == DjbServer
  {
    assert Cut(hs, jbHost) == k by {
      assert IsHost(hs[k - 1], jbHost);
    }
    FilterMeans(hs[k..], origin);
    assert (hs[..k] + Filter(hs[k..], origin))[k..] == Filter(hs[k..], origin);
  }

  /** The plugin compares Host headers with a whole URL, scheme included; a Host header holds a
      host and a port. So no request is ever recognized as going to the daemon. */
  lemma HostNeverMatches(hs: seq<H>, server: string, port: string, origin: string)
    requires "http://" <= server
    requires forall h :: h in hs && h.name == Host ==> !("http://" <= h.value)
    ensures Cut(hs, server + ":" + port) == 0
  {
    var jbHost := server + ":" + port;
    assert "http://" <= jbHost by {
      assert forall i :: 0 <= i < 7 ==> jbHost[i] == server[i];
    }
    NoMatchNoCut(hs, jbHost);
  }
}
