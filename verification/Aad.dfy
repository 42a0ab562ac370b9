/** Additional authenticated data: a template filled in one pass. */
module Aad {
  import opened Options
  import opened Integers
  import opened Text

  datatype Context = Context(tenantID: string, appID: string, topicID: string, eventID: string, version: Int64)

  const DEFAULT_TEMPLATE := "{tenant_id}|{app_id}|{topic_id}|{event_id}|{version}"

  function Digits(n: nat): string {
    if n < 10 then ["0123456789"[n]] else Digits(n / 10) + ["0123456789"[n % 10]]
  }

  function Magnitude(n: int): nat {
    if n < 0 then -n else n
  }

  function FormatInt(n: Int64): string {
    if n < 0 then "-" + Digits(Magnitude(n)) else Digits(Magnitude(n))
  }

  type Pairs = seq<(string, string)>

  /** The first pair whose pattern the text starts with. */
  function Lookup(pairs: Pairs, s: string): Option<(string, string)> {
    if pairs == [] then None
    else if pairs[0].0 <= s then Some(pairs[0])
    else Lookup(pairs[1..], s)
  }

  lemma {:induction false} LookupMeans(pairs: Pairs, s: string)
    ensures Lookup(pairs, s).Some? ==> Lookup(pairs, s).value in pairs && Lookup(pairs, s).value.0 <= s
  {
    if pairs == [] {
    } else {
      LookupMeans(pairs[1..], s);
    }
  }

  /** Replaces in one pass from left to right; what was inserted is not scanned again. */
  function ReplacePairs(pairs: Pairs, s: string): string
    requires forall p :: p in pairs ==> p.0 != ""
    decreases |s|
  {
    if s == "" then ""
    else
      match Lookup(pairs, s)
      case None => [s[0]] + ReplacePairs(pairs, s[1..])
      case Some(p) =>
        LookupMeans(pairs, s);
        p.1 + ReplacePairs(pairs, s[|p.0|..])
  }

  function PairsOf(ctx: Context): (pairs: Pairs)
    ensures forall p :: p in pairs ==> p.0 != ""
  {
    [("{tenant_id}", ctx.tenantID),
     ("{app_id}", ctx.appID),
     ("{topic_id}", ctx.topicID),
     ("{event_id}", ctx.eventID),
     ("{version}", FormatInt(ctx.version))]
  }

  function BuildAAD(template: string, ctx: Context): Option<string> {
    if template == "" then None else Some(ReplacePairs(PairsOf(ctx), template))
  }

  // ---- What the default template yields ----

  /** The five fields with bars between them. */
  function Barred(ctx: Context): string {
    ctx.tenantID + "|" + (ctx.appID + "|" + (ctx.topicID + "|" + (ctx.eventID + "|" + FormatInt(ctx.version))))
  }

  /** A pattern at the front is found if no earlier pattern is there. */
  lemma {:induction false} LookupAt(pairs: Pairs, s: string, i: nat)
    requires i < |pairs| && pairs[i].0 <= s && forall j :: 0 <= j < i ==> !(pairs[j].0 <= s)
    ensures Lookup(pairs, s) == Some(pairs[i])
    decreases i
  {
    if i == 0 {
    } else {
      LookupAt(pairs[1..], s, i - 1);
    }
  }

  lemma FillPattern(ctx: Context, i: nat, rest: string)
    requires i < 5
    ensures var pairs := PairsOf(ctx);
      ReplacePairs(pairs, pairs[i].0 + rest) == pairs[i].1 + ReplacePairs(pairs, rest)
  {
    var pairs := PairsOf(ctx);
    var s := pairs[i].0 + rest;
    assert |pairs[i].0| >= 3 && s[1] == pairs[i].0[1] && s[2] == pairs[i].0[2];
    assert forall j :: 0 <= j < i ==> pairs[j].0[1] != pairs[i].0[1] || pairs[j].0[2] != pairs[i].0[2];
    LookupAt(pairs, s, i);
    assert s[|pairs[i].0|..] == rest;
  }

  lemma CopyBar(ctx: Context, rest: string)
    ensures ReplacePairs(PairsOf(ctx), "|" + rest) == "|" + ReplacePairs(PairsOf(ctx), rest)
  {
    var pairs := PairsOf(ctx);
    var s := "|" + rest;
    LookupMeans(pairs, s);
    assert s[0] == '|' && forall p :: p in pairs ==> p.0[0] == '{';
    assert s[1..] == rest;
  }

  lemma FillField(ctx: Context, i: nat, rest: string)
    requires i < 5
    ensures var pairs := PairsOf(ctx);
      ReplacePairs(pairs, pairs[i].0 + ("|" + rest)) == pairs[i].1 + "|" + ReplacePairs(pairs, rest)
  {
    FillPattern(ctx, i, "|" + rest);
    CopyBar(ctx, rest);
  }

  lemma TemplateEnd()
    ensures "{topic_id}|{event_id}|{version}" == "{topic_id}" + ("|" + ("{event_id}" + ("|" + ("{version}" + ""))))
  {
  }

  lemma TemplateFields()
    ensures DEFAULT_TEMPLATE ==
      "{tenant_id}" + ("|" + ("{app_id}" + ("|" + ("{topic_id}" + ("|" + ("{event_id}" + ("|" + ("{version}" + ""))))))))
  {
    TemplateEnd();
    assert DEFAULT_TEMPLATE == "{tenant_id}" + ("|" + ("{app_id}" + ("|" + "{topic_id}|{event_id}|{version}")));
  }

  /** On the default template the result is the five fields with bars between them, whatever
      the fields contain: placeholders included; an empty template yields no data. */
  lemma DefaultAAD(ctx: Context)
    ensures BuildAAD(DEFAULT_TEMPLATE, ctx) == Some(Barred(ctx)) && BuildAAD("", ctx).None?
  {
    var s5 := "{version}" + "";
    var s4 := "{event_id}" + ("|" + s5);
    var s3 := "{topic_id}" + ("|" + s4);
    var s2 := "{app_id}" + ("|" + s3);
    TemplateFields();
    FillField(ctx, 0, s2);
    FillField(ctx, 1, s3);
    FillField(ctx, 2, s4);
    FillField(ctx, 3, s5);
    FillPattern(ctx, 4, "");
    LastField(ctx);
  }

  lemma LastField(ctx: Context)
    ensures FormatInt(ctx.version) + ReplacePairs(PairsOf(ctx), "") == FormatInt(ctx.version)
  {
  }

  // ---- Injectivity ----

  function DigitValue(c: char): int {
    c as int - '0' as int
  }

  /** The number that a string of digits denotes. */
  function Value(s: string): int {
    if s == "" then 0 else 10 * Value(s[..|s| - 1]) + DigitValue(s[|s| - 1])
  }

  lemma {:induction false} DigitsMean(n: nat)
    ensures Digits(n) != "" && Value(Digits(n)) == n
    ensures forall c :: c in Digits(n) ==> '0' <= c <= '9'
    ensures if n == 0 then Digits(n) == "0" else Digits(n)[0] != '0'
  {
    var d := Digits(n);
    assert forall k :: 0 <= k < 10 ==> DigitValue("0123456789"[k]) == k && '0' <= "0123456789"[k] <= '9';
    if n >= 10 {
      DigitsMean(n / 10);
      assert d[..|d| - 1] == Digits(n / 10);
    } else {
      assert d[..|d| - 1] == "";
    }
  }

  /** The numeral of a number denotes it, has a sign exactly if the number is negative, and has
      no leading zero. */
  lemma FormatIntMeans(n: Int64)
    ensures var s := FormatInt(n);
      var digits := if n < 0 then s[1..] else s;
      && (n < 0 ==> s[0] == '-') && (if n < 0 then -Value(digits) else Value(digits)) == n
      && (forall c :: c in digits ==> '0' <= c <= '9') && digits != "" && (digits[0] == '0' ==> n == 0 && digits == "0")
  {
    DigitsMean(Magnitude(n));
    assert n < 0 ==> FormatInt(n)[1..] == Digits(Magnitude(n));
  }

  /** Decimal numerals are unambiguous and free of bars, negative ones included. */
  lemma FormatIntInjective(m: Int64, n: Int64)
    ensures '|' !in FormatInt(m)
    ensures FormatInt(m) == FormatInt(n) <==> m == n
  {
    DigitsMean(Magnitude(m));
    DigitsMean(Magnitude(n));
    SignShows(m);
    SignShows(n);
  }

  lemma SignShows(n: Int64)
    ensures FormatInt(n) != "" && (n < 0 <==> FormatInt(n)[0] == '-')
    ensures Value(if n < 0 then FormatInt(n)[1..] else FormatInt(n)) == Magnitude(n)
  {
    var d := Digits(Magnitude(n));
    DigitsMean(Magnitude(n));
    assert d[0] in d;
    assert ("-" + d)[1..] == d;
  }

  ghost predicate RoutingBarFree(ctx: Context) {
    '|' !in ctx.tenantID && '|' !in ctx.appID && '|' !in ctx.topicID
  }

  /** Contexts without bars in tenant, app and topic are told apart, even if event ids contain
      bars. */
  lemma AADInjective(x: Context, y: Context)
    requires RoutingBarFree(x) && RoutingBarFree(y)
    ensures BuildAAD(DEFAULT_TEMPLATE, x) == BuildAAD(DEFAULT_TEMPLATE, y) <==> x == y
  {
    DefaultAAD(x);
    DefaultAAD(y);
    if Barred(x) == Barred(y) {
      BarredInjective(x, y);
    }
  }

  lemma BarredInjective(x: Context, y: Context)
    requires RoutingBarFree(x) && RoutingBarFree(y) && Barred(x) == Barred(y)
    ensures x == y
  {
    var e, f := x.eventID + "|" + FormatInt(x.version), y.eventID + "|" + FormatInt(y.version);
    var p, q := x.topicID + "|" + e, y.topicID + "|" + f;
    var a, b := x.appID + "|" + p, y.appID + "|" + q;
    SplitAtFirst(x.tenantID, a, y.tenantID, b, '|');
    SplitAtFirst(x.appID, p, y.appID, q, '|');
    SplitAtFirst(x.topicID, e, y.topicID, f, '|');
    FormatIntInjective(x.version, y.version);
    FormatIntInjective(y.version, x.version);
    SplitAtLast(x.eventID, FormatInt(x.version), y.eventID, FormatInt(y.version), '|');
  }

  /** A context is the only one with its data exactly when none of its fields contains a bar. */
  lemma AADUniqueExactlyWhenBarFree(x: Context)
    ensures (forall y :: BuildAAD(DEFAULT_TEMPLATE, y) == BuildAAD(DEFAULT_TEMPLATE, x) ==> y == x)
            <==> RoutingBarFree(x) && '|' !in x.eventID
  {
    if RoutingBarFree(x) && '|' !in x.eventID {
      forall y | BuildAAD(DEFAULT_TEMPLATE, y) == BuildAAD(DEFAULT_TEMPLATE, x) ensures y == x {
        OnlyOne(x, y);
      }
    } else {
      var y := Collision(x);
    }
  }

  lemma OnlyOne(x: Context, y: Context)
    requires RoutingBarFree(x) && '|' !in x.eventID
    requires BuildAAD(DEFAULT_TEMPLATE, y) == BuildAAD(DEFAULT_TEMPLATE, x)
    ensures y == x
  {
    DefaultAAD(x);
    DefaultAAD(y);
    CountBars(x);
    CountBars(y);
    BarredInjective(x, y);
  }

  lemma CountBars(x: Context)
    ensures multiset(Barred(x))['|'] == 4 + multiset(x.tenantID)['|'] + multiset(x.appID)['|'] + multiset(x.topicID)['|'] + multiset(x.eventID)['|']
  {
    FormatIntInjective(x.version, x.version);
    assert multiset("|")['|'] == 1;
  }

  ghost function FirstBar(s: string): (n: nat)
    requires '|' in s
    ensures n < |s| && s == s[..n] + "|" + s[n + 1..]
  {
    var n: nat :| n < |s| && s[n] == '|';
    n
  }

  /** A bar can belong to either of two neighbours. */
  lemma BarMoves(a: string, b: string, c: string)
    ensures (a + "|" + b) + "|" + c == a + "|" + (b + "|" + c)
  {
  }

  /** A bar in a field moves to a neighbour: another context with the same data. */
  lemma Collision(x: Context) returns (y: Context)
    requires !(RoutingBarFree(x) && '|' !in x.eventID)
    ensures y != x && BuildAAD(DEFAULT_TEMPLATE, y) == BuildAAD(DEFAULT_TEMPLATE, x)
  {
    var e := x.eventID + "|" + FormatInt(x.version);
    var p := x.topicID + "|" + e;
    if '|' in x.tenantID {
      var n := FirstBar(x.tenantID);
      var l, r := x.tenantID[..n], x.tenantID[n + 1..];
      y := x.(tenantID := l, appID := r + "|" + x.appID);
      BarMoves(l, r, x.appID + "|" + p);
      BarMoves(r, x.appID, p);
    } else if '|' in x.appID {
      var n := FirstBar(x.appID);
      var l, r := x.appID[..n], x.appID[n + 1..];
      y := x.(tenantID := x.tenantID + "|" + l, appID := r);
      BarMoves(x.tenantID, l, r + "|" + p);
      BarMoves(l, r, p);
    } else if '|' in x.topicID {
      var n := FirstBar(x.topicID);
      var l, r := x.topicID[..n], x.topicID[n + 1..];
      y := x.(appID := x.appID + "|" + l, topicID := r);
      BarMoves(x.appID, l, r + "|" + e);
      BarMoves(l, r, e);
    } else {
      var n := FirstBar(x.eventID);
      var l, r := x.eventID[..n], x.eventID[n + 1..];
      y := x.(topicID := x.topicID + "|" + l, eventID := r);
      BarMoves(x.topicID, l, r + "|" + FormatInt(x.version));
      BarMoves(l, r, FormatInt(x.version));
    }
    DefaultAAD(x);
    DefaultAAD(y);
  }
}
