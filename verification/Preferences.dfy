/** The preferences (server/preferences.c): values overwritten key by key from posted documents,
    and the argument vector for stegotorus, whose size is computed in 32 bits before a running
    slot number fills it. */
module Preferences {
  import opened Collections
  import Decimal

  const PRF_CC: nat := 0
  const PRF_EXE: nat := 1
  const PRF_LL: nat := 2
  const PRF_SM: nat := 3
  const PRF_TP: nat := 4
  const PRF_SHS: nat := 5
  const PRF_PA: nat := 6
  const PRF_JA: nat := 7
  const PRF_SA: nat := 8
  const PRF_MAX: nat := 9

  function Default(i: nat): Option<string> {
    match i
    case 0 => Some("1")
    case 1 => Some("/usr/sbin/stegotorus")
    case 2 => Some("warn")
    case 3 => Some("json")
    case 4 => Some("false")
    case 6 => Some("127.0.0.1:1080")
    case 7 => Some("127.0.0.1:6543")
    case 8 => Some("127.0.0.1:8080")
    case _ => None
  }

  // ---------------------------------------------------------------- posted documents

  /** What a posted document holds under a key. */
  datatype Field = Absent | NotString | Text(text: string)

  /** A posted document: `fields` are those of the known keys, in their order. */
  datatype Doc = NoDoc | Malformed | NotObject | Object(fields: seq<Field>)

  /** The string a document holds for a key. */
  function StringAt(doc: Doc, i: nat): Option<string> {
    if doc.Object? && i < |doc.fields| && doc.fields[i].Text? then Some(doc.fields[i].text) else None
  }

  /** The values after a document was posted. */
  function After(values: seq<Option<string>>, doc: Doc): (r: seq<Option<string>>)
    requires |values| == PRF_MAX
    ensures |r| == PRF_MAX
  {
    seq(PRF_MAX, i requires 0 <= i < PRF_MAX => if StringAt(doc, i).Some? then StringAt(doc, i) else values[i])
  }

  function Unset(): (r: seq<Option<string>>)
    ensures |r| == PRF_MAX
  {
    seq(PRF_MAX, _ => None)
  }

  function AfterAll(docs: seq<Doc>): (r: seq<Option<string>>)
    ensures |r| == PRF_MAX
  {
    if docs == [] then Unset() else After(AfterAll(docs[..|docs| - 1]), docs[|docs| - 1])
  }

  /** Document `k` is the last that held a string for key `i`. */
  ghost predicate LastString(docs: seq<Doc>, i: nat, k: nat) {
    && k < |docs| && StringAt(docs[k], i).Some?
    && forall j :: k < j < |docs| ==> StringAt(docs[j], i) == None
  }

  /** After any history of posts a value is set exactly when some document held a string for its
      key, and then it is the last such string; otherwise the default is used. */
  lemma {:induction false} LastStringWins(docs: seq<Doc>, i: nat)
    requires i < PRF_MAX
    ensures AfterAll(docs)[i] == None <==> !exists k: nat :: LastString(docs, i, k)
    ensures forall k: nat :: LastString(docs, i, k) ==> AfterAll(docs)[i] == StringAt(docs[k], i)
    ensures ValueOf(AfterAll(docs), i) == if AfterAll(docs)[i] == None then Default(i) else AfterAll(docs)[i]
  {
    if docs != [] {
      var init, last := docs[..|docs| - 1], docs[|docs| - 1];
      assert docs == init + [last];
      LastStringWins(init, i);
      if StringAt(last, i).Some? {
        assert LastString(docs, i, |init|);
      } else {
        forall k: nat
          ensures LastString(docs, i, k) <==> LastString(init, i, k)
        {
          SameLastString(init, last, i, k);
        }
      }
    }
  }

  lemma SameLastString(init: seq<Doc>, last: Doc, i: nat, k: nat)
    requires StringAt(last, i) == None
    ensures LastString(init + [last], i, k) <==> LastString(init, i, k)
  {
    var docs := init + [last];
    if LastString(docs, i, k) {
      assert k < |init|;
      assert forall j :: k < j < |init| ==> docs[j] == init[j];
    }
  }

  // ---------------------------------------------------------------- the argument vector

  const TWO_TO_THE_32: nat := 0x1_0000_0000

  /** The environment's overrides. */
  datatype Env = Env(secret: Option<string>, address: Option<string>, stegMethod: Option<string>)

  function ValueOf(values: seq<Option<string>>, i: nat): Option<string>
    requires |values| == PRF_MAX
  {
    if i >= PRF_MAX then None
    else if values[i].Some? then values[i] else Default(i)
  }

  /** A value that has a default. */
  function Set(values: seq<Option<string>>, i: nat): string
    requires |values| == PRF_MAX && i < PRF_MAX && i != PRF_SHS
  {
    ValueOf(values, i).value
  }

  /** A conversion from int to unsigned int. */
  function Circuits(values: seq<Option<string>>): (c: nat)
    requires |values| == PRF_MAX
    ensures c < TWO_TO_THE_32
  {
    Decimal.Atoi(Set(values, PRF_CC)) % TWO_TO_THE_32
  }

  predicate Traces(values: seq<Option<string>>)
    requires |values| == PRF_MAX
  {
    Set(values, PRF_TP) == "true"
  }

  function Secret(values: seq<Option<string>>, env: Env): Option<string>
    requires |values| == PRF_MAX
  {
    if env.secret.Some? then env.secret else ValueOf(values, PRF_SHS)
  }

  predicate HasSecret(values: seq<Option<string>>, env: Env)
    requires |values| == PRF_MAX
  {
    Secret(values, env).Some? && Secret(values, env).value != ""
  }

  function Address(values: seq<Option<string>>, env: Env): string
    requires |values| == PRF_MAX
  {
    if env.address.Some? then env.address.value else Set(values, PRF_JA)
  }

  function StegMethod(values: seq<Option<string>>, env: Env): string
    requires |values| == PRF_MAX
  {
    if env.stegMethod.Some? then env.stegMethod.value else Set(values, PRF_SM)
  }

  function LogOption(values: seq<Option<string>>): string
    requires |values| == PRF_MAX
  {
    "--log-min-severity=" + Set(values, PRF_LL)
  }

  /** The scratch buffer holds 255 characters; what does not fit is cut off. */
  function SecretOption(secret: string): string {
    var s := "--shared-secret=" + secret;
    if |s| < 256 then s else s[..255]
  }

  function Pairs(c: nat, address: string, stegMethod: string): (r: seq<Option<string>>)
    ensures |r| == 2 * c
  {
    if c == 0 then [] else Pairs(c - 1, address, stegMethod) + [Some(address), Some(stegMethod)]
  }

  function SlotCount(c: nat, secret: bool, trace: bool): nat {
    2 * c + 7 + (if secret then 1 else 0) + if trace then 1 else 0
  }

  /** The whole vector: executable and fixed options, the optional ones, the proxy's address, an
      address and a module for every circuit, and the end mark. */
  function Layout(values: seq<Option<string>>, env: Env): (r: seq<Option<string>>)
    requires |values| == PRF_MAX
    ensures |r| == SlotCount(Circuits(values), HasSecret(values, env), Traces(values))
    ensures r[|r| - 1] == None && forall i :: 0 <= i < |r| - 1 ==> r[i].Some?
  {
    Whole(values, Traces(values), Secret(values, env), Circuits(values), Address(values, env), StegMethod(values, env))
  }

  function Fixed(values: seq<Option<string>>): seq<Option<string>>
    requires |values| == PRF_MAX
  {
    [Some(Set(values, PRF_EXE)), Some(LogOption(values)), Some("chop"), Some("socks"), Some("--persist-mode")]
  }

  function Options(values: seq<Option<string>>, trace: bool, secret: Option<string>): (r: seq<Option<string>>)
    requires |values| == PRF_MAX
    ensures forall i :: 0 <= i < |r| ==> r[i].Some?
  {
    (if trace then [Some("--trace-packets")] else [])
    + (if secret.Some? && secret.value != "" then [Some(SecretOption(secret.value))] else [])
    + [Some(Set(values, PRF_PA))]
  }

  function Whole(values: seq<Option<string>>, trace: bool, secret: Option<string>,
                 circuits: nat, address: string, stegMethod: string): (r: seq<Option<string>>)
    requires |values| == PRF_MAX
    ensures |r| == SlotCount(circuits, secret.Some? && secret.value != "", trace)
    ensures r[|r| - 1] == None && forall i :: 0 <= i < |r| - 1 ==> r[i].Some?
  {
    PairsAreSet(circuits, address, stegMethod);
    Fixed(values) + Options(values, trace, secret) + Pairs(circuits, address, stegMethod) + [None]
  }

  /** An option whose value is there and not empty. */
  predicate Given(v: Option<string>) { v.Some? && v.value != "" }

  /** The secret's option, cut off after 255 characters. */
  ghost predicate IsSecretOption(slot: Option<string>, secret: string) {
    slot == Some(if |secret| < 240 then "--shared-secret=" + secret else "--shared-secret=" + secret[..239])
  }

  lemma SecretIsCut(secret: string)
    ensures IsSecretOption(Some(SecretOption(secret)), secret)
  {
    var prefix := "--shared-secret=";
    assert |prefix| == 16;
    if |secret| >= 240 {
      assert (prefix + secret)[..255] == prefix + secret[..239];
    }
  }

  lemma OptionSlots(values: seq<Option<string>>, trace: bool, secret: Option<string>)
    requires |values| == PRF_MAX
    ensures var r, p := Options(values, trace, secret), if trace then 1 else 0;
            && |r| == p + (if Given(secret) then 2 else 1) && r[|r| - 1] == ValueOf(values, PRF_PA)
            && (trace ==> r[0] == Some("--trace-packets"))
            && (Given(secret) ==> IsSecretOption(r[p], secret.value))
  {
    if Given(secret) {
      SecretIsCut(secret.value);
    }
  }

  /** The vector slot by slot: the executable and four fixed options. */
  lemma LayoutFixed(values: seq<Option<string>>, env: Env)
    requires |values| == PRF_MAX
    ensures var r, level := Layout(values, env), ValueOf(values, PRF_LL);
            && |r| > 5 && level.Some? && r[0] == ValueOf(values, PRF_EXE)
            && r[1] == Some("--log-min-severity=" + level.value)
            && r[2] == Some("chop") && r[3] == Some("socks") && r[4] == Some("--persist-mode")
  {
  }

  /** Packet tracing if it is asked for, the secret if there is one, and the proxy's address. The
      environment's secret goes before the preferences. */
  lemma LayoutOptions(values: seq<Option<string>>, env: Env)
    requires |values| == PRF_MAX
    ensures var r, trace := Layout(values, env), ValueOf(values, PRF_TP) == Some("true");
            var secret := if env.secret.Some? then env.secret else ValueOf(values, PRF_SHS);
            var p := if trace then 6 else 5;
            var q := if Given(secret) then p + 1 else p;
            && |r| == q + 1 + 2 * Circuits(values) + 1
            && (trace ==> r[5] == Some("--trace-packets"))
            && (Given(secret) ==> IsSecretOption(r[p], secret.value))
            && r[q] == ValueOf(values, PRF_PA)
  {
    OptionsInside(Fixed(values), values, Traces(values), Secret(values, env),
                  Pairs(Circuits(values), Address(values, env), StegMethod(values, env)));
  }

  lemma OptionsInside(head: seq<Option<string>>, values: seq<Option<string>>, trace: bool, secret: Option<string>,
                      tail: seq<Option<string>>)
    requires |values| == PRF_MAX
    ensures var r, p := head + Options(values, trace, secret) + tail + [None], |head| + if trace then 1 else 0;
            var q := if Given(secret) then p + 1 else p;
            && |r| == q + 1 + |tail| + 1
            && (trace ==> r[|head|] == Some("--trace-packets"))
            && (Given(secret) ==> IsSecretOption(r[p], secret.value))
            && r[q] == ValueOf(values, PRF_PA)
  {
    OptionSlots(values, trace, secret);
    var options := Options(values, trace, secret);
    assert forall i :: 0 <= i < |options| ==> (head + options + tail + [None])[|head| + i] == options[i];
  }

  /** The vector ends with two slots for each of `n` circuits and the end mark. */
  ghost predicate EndsWithCircuits(r: seq<Option<string>>, n: nat,
                                   address: Option<string>, stegMethod: Option<string>)
  {
    && |r| > 2 * n && r[|r| - 1] == None
    && forall i :: 0 <= i < n ==> r[|r| - 1 - 2 * n + 2 * i] == address && r[|r| - 2 * n + 2 * i] == stegMethod
  }

  /** At its end an address and a module for every circuit, and the end mark. The environment's address
      and module go before the preferences. */
  lemma LayoutCircuits(values: seq<Option<string>>, env: Env)
    requires |values| == PRF_MAX
    ensures EndsWithCircuits(Layout(values, env), Decimal.Atoi(ValueOf(values, PRF_CC).value) % TWO_TO_THE_32,
                             if env.address.Some? then env.address else ValueOf(values, PRF_JA),
                             if env.stegMethod.Some? then env.stegMethod else ValueOf(values, PRF_SM))
  {
    var head := Fixed(values) + Options(values, Traces(values), Secret(values, env));
    var n, address, stegMethod := Circuits(values), Address(values, env), StegMethod(values, env);
    PairsAtEnd(head, n, address, stegMethod);
    assert Layout(values, env) == head + Pairs(n, address, stegMethod) + [None];
    assert Some(address) == if env.address.Some? then env.address else ValueOf(values, PRF_JA);
    assert Some(stegMethod) == if env.stegMethod.Some? then env.stegMethod else ValueOf(values, PRF_SM);
  }

  lemma PairsAtEnd(head: seq<Option<string>>, n: nat, address: string, stegMethod: string)
    ensures EndsWithCircuits(head + Pairs(n, address, stegMethod) + [None], n, Some(address), Some(stegMethod))
  {
    PairsAreSet(n, address, stegMethod);
    var r, zs := head + Pairs(n, address, stegMethod) + [None], Pairs(n, address, stegMethod);
    assert forall i :: 0 <= i < n ==> r[|head| + 2 * i] == zs[2 * i] && r[|head| + 2 * i + 1] == zs[2 * i + 1];
  }

  lemma {:induction false} PairsAreSet(c: nat, address: string, stegMethod: string)
    ensures var r := Pairs(c, address, stegMethod);
            && (forall i :: 0 <= i < |r| ==> r[i].Some?)
            && forall i :: 0 <= i < c ==> r[2 * i] == Some(address) && r[2 * i + 1] == Some(stegMethod)
  {
    if c > 0 {
      PairsAreSet(c - 1, address, stegMethod);
    }
  }

  /** argc, as the code computes it: every addition and the doubling in 32 bits. */
  function Argc32(c: nat, secret: bool, trace: bool): (n: nat)
    ensures n < TWO_TO_THE_32
  {
    var n := ((2 * c) % TWO_TO_THE_32 + 7) % TWO_TO_THE_32;
    var m := if secret then (n + 1) % TWO_TO_THE_32 else n;
    if trace then (m + 1) % TWO_TO_THE_32 else m
  }

  function Argc(values: seq<Option<string>>, env: Env): (n: nat)
    requires |values| == PRF_MAX
    ensures n < TWO_TO_THE_32
  {
    Argc32(Circuits(values), HasSecret(values, env), Traces(values))
  }

  lemma Argc32Wraps(c: nat, secret: bool, trace: bool)
    ensures Argc32(c, secret, trace) == SlotCount(c, secret, trace) % TWO_TO_THE_32
  {
    AddModulo(2 * c, 7);
    AddModulo(2 * c + 7, 1);
    AddModulo(2 * c + 8, 1);
  }

  lemma BelowItself(n: nat)
    ensures n % TWO_TO_THE_32 == n <==> n < TWO_TO_THE_32
    ensures n % TWO_TO_THE_32 <= n
  {
  }

  /** The computed size is the number of slots exactly when that number fits 32 bits; otherwise
      it is less. */
  lemma ArgcIsSlots(values: seq<Option<string>>, env: Env)
    requires |values| == PRF_MAX
    ensures var n := |Layout(values, env)|;
            && Argc(values, env) == n % TWO_TO_THE_32
            && (Argc(values, env) == n <==> n < TWO_TO_THE_32)
            && Argc(values, env) <= n
  {
    Argc32Wraps(Circuits(values), HasSecret(values, env), Traces(values));
    BelowItself(|Layout(values, env)|);
  }

  lemma AddModulo(x: nat, y: nat)
    ensures (x % TWO_TO_THE_32 + y) % TWO_TO_THE_32 == (x + y) % TWO_TO_THE_32
  {
    var q := x / TWO_TO_THE_32;
    assert x == q * TWO_TO_THE_32 + x % TWO_TO_THE_32;
    var r := x % TWO_TO_THE_32 + y;
    assert (x + y) == q * TWO_TO_THE_32 + r;
  }

  /** Up to 2^31 - 5 circuits the vector always fits; just past that it need not. */
  lemma CircuitBound(values: seq<Option<string>>, env: Env)
    requires |values| == PRF_MAX
    ensures Circuits(values) <= 0x8000_0000 - 5 ==> Argc(values, env) == |Layout(values, env)|
    ensures Circuits(values) == 0x8000_0000 - 4 && Traces(values) && HasSecret(values, env) ==>
              Argc(values, env) == 1 && |Layout(values, env)| == TWO_TO_THE_32 + 1
  {
    ArgcIsSlots(values, env);
  }

  // ---------------------------------------------------------------- what the code does

  /** A vector, the return value -1, or a write outside the array. */
  datatype Outcome = Failed | Filled(returned: int, argv: array<Option<string>>) | OutOfBounds(slot: nat)

  datatype Progress = Fine | TooLong | Outside

  /** A conversion from unsigned int to int. */
  function AsInt(n: nat): int
    requires n < TWO_TO_THE_32
  {
    if n < 0x8000_0000 then n else n - TWO_TO_THE_32
  }

  /** `argv[vslot++] = s`, or an attempt to write behind the end. */
  method Put(argv: array<Option<string>>, vslot: nat, s: Option<string>) returns (ok: bool, next: nat)
    requires vslot <= argv.Length
    modifies argv
    ensures ok <==> vslot < argv.Length
    ensures ok ==> next == vslot + 1 && argv[..next] == old(argv[..vslot]) + [s]
    ensures !ok ==> next == vslot
  {
    if vslot < argv.Length {
      argv[vslot] := s;
      return true, vslot + 1;
    }
    return false, vslot;
  }

  /** The starting count, and one more for each option given. */
  method CountArguments(circuits: nat, secret: bool, trace: bool) returns (argc: nat)
    ensures argc == Argc32(circuits, secret, trace)
  {
    argc := ((2 * circuits) % TWO_TO_THE_32 + 7) % TWO_TO_THE_32;
    if secret {
      argc := (argc + 1) % TWO_TO_THE_32;
    }
    if trace {
      argc := (argc + 1) % TWO_TO_THE_32;
    }
  }

  class Store {
    const values: array<Option<string>>

    ghost function View(): (r: seq<Option<string>>)
      reads this, values
    {
      values[..]
    }

    ghost predicate Valid() { values.Length == PRF_MAX }

    constructor ()
      ensures Valid() && fresh(values) && View() == Unset()
    {
      values := new Option<string>[PRF_MAX](_ => None);
    }

    method GetValue(i: nat) returns (v: Option<string>)
      requires Valid()
      ensures v == ValueOf(View(), i)
      ensures i < PRF_MAX && View()[i].Some? ==> v == View()[i]
      ensures i >= PRF_MAX ==> v == None
    {
      if i >= PRF_MAX {
        return None;
      }
      if values[i].Some? {
        return values[i];
      }
      return Default(i);
    }

    method SetValue(i: nat, v: Option<string>)
      requires Valid()
      modifies values
      ensures View() == if i < PRF_MAX then old(View())[i := v] else old(View())
    {
      if i >= PRF_MAX {
        return;
      }
      values[i] := v;
    }

    method ParsePreferences(doc: Doc) returns (ok: bool)
      requires Valid() && (doc.Object? ==> |doc.fields| == PRF_MAX)
      modifies values
      ensures View() == After(old(View()), doc) && ok == doc.Object?
    {
      match doc {
        case NoDoc => return false;
        case Malformed => return false;
        case NotObject => return false;
        case Object(fields) =>
          ghost var before := View();
          for i := 0 to PRF_MAX
            invariant Valid()
            invariant forall j :: 0 <= j < i ==>
                        values[j] == if fields[j].Text? then Some(fields[j].text) else before[j]
            invariant forall j :: i <= j < PRF_MAX ==> values[j] == before[j]
          {
            if fields[i].Text? {
              SetValue(i, Some(fields[i].text));
            }
          }
          return true;
      }
    }

    /** The executable and the fixed options. The log level goes through a buffer of 256. */
    method PutFixed(argv: array<Option<string>>) returns (progress: Progress, vslot: nat)
      requires Valid() && argv != values
      modifies argv
      ensures match progress
              case TooLong => argv.Length > 0 && |LogOption(View())| >= 256
              case Outside => vslot == argv.Length && (argv.Length == 0 || |LogOption(View())| < 256)
                              && argv.Length < |Fixed(View())|
              case Fine => |LogOption(View())| < 256 && vslot <= argv.Length && argv[..vslot] == Fixed(View())
    {
      var exe := GetValue(PRF_EXE);
      var ok;
      ok, vslot := Put(argv, 0, exe);
      if !ok { return Outside, vslot; }
      var level := GetValue(PRF_LL);
      var scratch := "--log-min-severity=" + level.value;
      if |scratch| >= 256 {
        return TooLong, vslot;
      }
      ok, vslot := Put(argv, vslot, Some(scratch));
      if !ok { return Outside, vslot; }
      ok, vslot := Put(argv, vslot, Some("chop"));
      if !ok { return Outside, vslot; }
      ok, vslot := Put(argv, vslot, Some("socks"));
      if !ok { return Outside, vslot; }
      ok, vslot := Put(argv, vslot, Some("--persist-mode"));
      if !ok { return Outside, vslot; }
      progress := Fine;
    }

    /** The optional options and the proxy's address. */
    method PutOptions(argv: array<Option<string>>, start: nat, trace: bool, secret: Option<string>)
      returns (progress: Progress, vslot: nat)
      requires Valid() && argv != values && start <= argv.Length
      modifies argv
      ensures vslot <= argv.Length
      ensures match progress
              case TooLong => false
              case Outside => vslot == argv.Length < start + |Options(View(), trace, secret)|
              case Fine => argv[..vslot] == old(argv[..start]) + Options(View(), trace, secret)
    {
      vslot := start;
      var ok;
      if trace {
        ok, vslot := Put(argv, vslot, Some("--trace-packets"));
        if !ok { return Outside, vslot; }
      }
      if secret.Some? {
        if secret.value != "" {
          var scratch := "--shared-secret=" + secret.value;
          ok, vslot := Put(argv, vslot, Some(if |scratch| < 256 then scratch else scratch[..255]));
          if !ok { return Outside, vslot; }
        }
      }
      var proxy := GetValue(PRF_PA);
      ok, vslot := Put(argv, vslot, proxy);
      if !ok { return Outside, vslot; }
      progress := Fine;
    }

    /** An address and a module for every circuit, and the end mark. */
    method PutCircuits(argv: array<Option<string>>, start: nat, circuits: nat, address: string, stegMethod: string)
      returns (progress: Progress, vslot: nat)
      requires start <= argv.Length
      modifies argv
      ensures match progress
              case TooLong => false
              case Outside => vslot == argv.Length < start + 2 * circuits + 1
              case Fine => vslot <= argv.Length
                           && argv[..vslot] == old(argv[..start]) + Pairs(circuits, address, stegMethod) + [None]
    {
      vslot := start;
      ghost var head := argv[..start];
      var ok;
      var i := 0;
      assert argv[..vslot] == head + Pairs(0, address, stegMethod);
      while i < circuits
        invariant i <= circuits && vslot == start + 2 * i <= argv.Length
        invariant argv[..vslot] == head + Pairs(i, address, stegMethod)
      {
        ok, vslot := Put(argv, vslot, Some(address));
        if !ok { return Outside, vslot; }
        ok, vslot := Put(argv, vslot, Some(stegMethod));
        if !ok { return Outside, vslot; }
        i := i + 1;
      }
      ok, vslot := Put(argv, vslot, None);
      if !ok { return Outside, vslot; }
      progress := Fine;
    }

    /** The vector is built completely, or nothing useful comes of it: without memory or with too
        long a log level the code gives up, and with a size that wrapped around it writes outside
        the array, at the first slot behind it. */
    method GetArgv(env: Env, memory: bool) returns (r: Outcome)
      requires Valid()
      ensures !memory ==> r == Failed
      ensures memory && Argc(View(), env) == 0 ==> r == OutOfBounds(0)
      ensures memory && Argc(View(), env) > 0 && |LogOption(View())| >= 256 ==> r == Failed
      ensures memory && Argc(View(), env) > 0 && |LogOption(View())| < 256 ==>
                if Argc(View(), env) == |Layout(View(), env)|
                then r.Filled? && r.argv[..] == Layout(View(), env) && r.returned == AsInt(Argc(View(), env))
                else r == OutOfBounds(Argc(View(), env))
    {
      var trace, circuits, secret, address, stegMethod := Inputs(env);
      var argc := CountArguments(circuits, secret.Some? && secret.value != "", trace);
      if !memory {
        return Failed;
      }
      r := Fill(argc, trace, secret, circuits, address, stegMethod);
      ArgcIsSlots(View(), env);
    }

    /** The values to be used; the environment overrides three of them. */
    method Inputs(env: Env)
      returns (trace: bool, circuits: nat, secret: Option<string>, address: string, stegMethod: string)
      requires Valid()
      ensures trace == Traces(View()) && circuits == Circuits(View()) && secret == Secret(View(), env)
      ensures address == Address(View(), env) && stegMethod == StegMethod(View(), env)
    {
      var tracePackets := GetValue(PRF_TP);
      trace := tracePackets.value == "true";
      var count := GetValue(PRF_CC);
      circuits := Decimal.Atoi(count.value) % TWO_TO_THE_32;
      secret := env.secret;
      if secret == None {
        secret := GetValue(PRF_SHS);
      }
      var ja := env.address;
      if ja == None {
        ja := GetValue(PRF_JA);
      }
      var sm := env.stegMethod;
      if sm == None {
        sm := GetValue(PRF_SM);
      }
      address, stegMethod := ja.value, sm.value;
    }

    method Fill(argc: nat, trace: bool, secret: Option<string>, circuits: nat, address: string, stegMethod: string)
      returns (r: Outcome)
      requires Valid() && argc < TWO_TO_THE_32
      ensures argc == 0 ==> r == OutOfBounds(0)
      ensures argc > 0 && |LogOption(View())| >= 256 ==> r == Failed
      ensures argc > 0 && |LogOption(View())| < 256 ==>
                var whole := Whole(View(), trace, secret, circuits, address, stegMethod);
                if argc < |whole| then r == OutOfBounds(argc)
                else r.Filled? && r.argv.Length == argc && r.argv[..|whole|] == whole && r.returned == AsInt(argc)
    {
      var argv := new Option<string>[argc](_ => None);
      var progress, vslot := PutFixed(argv);
      if progress == TooLong { return Failed; }
      if progress == Outside { return OutOfBounds(vslot); }
      progress, vslot := PutOptions(argv, vslot, trace, secret);
      if progress == Outside { return OutOfBounds(vslot); }
      progress, vslot := PutCircuits(argv, vslot, circuits, address, stegMethod);
      if progress == Outside { return OutOfBounds(vslot); }
      return Filled(AsInt(argc), argv);
    }
  }

  /** Freeing a vector of which the caller says how long it is. */
  method FreeArgv(argc: nat, argv: array<Option<string>>) returns (inBounds: bool, freed: seq<Option<string>>)
    ensures inBounds <==> argc <= argv.Length
    ensures inBounds ==> freed == argv[..argc]
  {
    freed := [];
    for i := 0 to argc
      invariant i <= argv.Length && freed == argv[..i]
    {
      if i == argv.Length {
        return false, freed;
      }
      freed := freed + [argv[i]];
    }
    inBounds := true;
  }

  /** The caller takes a vector for good when the returned number is positive: that is so exactly
      when there are less than 2^31 slots. */
  lemma PositiveExactly(values: seq<Option<string>>, env: Env)
    requires |values| == PRF_MAX && |Layout(values, env)| < TWO_TO_THE_32
    ensures AsInt(Argc(values, env)) > 0 <==> |Layout(values, env)| < 0x8000_0000
  {
    ArgcIsSlots(values, env);
  }
}
