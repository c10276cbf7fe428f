// Text of nested objects: closing it up in place, and walking over the members of an object.
module Json {

  type Byte = b: int | 0 <= b < 256

  const QUOTE: Byte := 0x22
  const COMMA: Byte := 0x2C
  const COLON: Byte := 0x3A
  const BACKSLASH: Byte := 0x5C
  const OPEN: Byte := 0x7B
  const CLOSE: Byte := 0x7D

  predicate Visible(b: Byte) {
    0x20 < b < 0x7F
  }

  // ---- closing up -------------------------------------------------------------------------------

  // The next quotation mark from place i on, or the end.
  function NextQuote(s: seq<Byte>, i: nat): (e: nat)
    requires i <= |s|
    ensures i <= e <= |s|
    decreases |s| - i
  {
    if i == |s| || s[i] == QUOTE then i else NextQuote(s, i + 1)
  }

  lemma {:induction false} QuoteAt(s: seq<Byte>, i: nat)
    requires i <= |s| && NextQuote(s, i) < |s|
    ensures s[NextQuote(s, i)] == QUOTE
    decreases |s| - i
  {
    if s[i] != QUOTE {
      QuoteAt(s, i + 1);
    }
  }

  lemma {:induction false} FirstQuote(s: seq<Byte>, i: nat, j: nat)
    requires i <= |s| && i <= j <= NextQuote(s, i) && j < |s| && s[j] == QUOTE
    ensures j == NextQuote(s, i)
    decreases |s| - i
  {
    if s[i] != QUOTE {
      FirstQuote(s, i + 1, j);
    }
  }

  // Every quotation ends.
  predicate Closed(s: seq<Byte>)
    decreases |s|
  {
    if s == [] then true
    else if s[0] == QUOTE then NextQuote(s, 1) < |s| && Closed(s[NextQuote(s, 1) + 1..])
    else Closed(s[1..])
  }

  // What is left of a text when all that is not visible and not in a quotation is dropped.
  function Compact(s: seq<Byte>): seq<Byte>
    requires Closed(s)
    decreases |s|
  {
    if s == [] then []
    else if s[0] == QUOTE then s[..NextQuote(s, 1) + 1] + Compact(s[NextQuote(s, 1) + 1..])
    else (if Visible(s[0]) then [s[0]] else []) + Compact(s[1..])
  }

  // A quotation without quotation marks in it, or visible characters without any.
  predicate Token(t: seq<Byte>) {
    || (|t| >= 2 && t[0] == 0x22 && t[|t| - 1] == 0x22 && forall i | 0 < i < |t| - 1 :: t[i] != 0x22)
    || (forall i | 0 <= i < |t| :: t[i] != 0x22 && 0x21 <= t[i] <= 0x7E)
  }

  predicate Blank(g: seq<Byte>) {
    forall i | 0 <= i < |g| :: g[i] <= 0x20 || g[i] >= 0x7F
  }

  ghost predicate Tokens(tokens: seq<seq<Byte>>) {
    forall i | 0 <= i < |tokens| :: Token(tokens[i])
  }

  function Flatten(tokens: seq<seq<Byte>>): seq<Byte> {
    if tokens == [] then [] else tokens[0] + Flatten(tokens[1..])
  }

  // The tokens with any blanks before each of them and after the last.
  function Spread(tokens: seq<seq<Byte>>, gaps: seq<seq<Byte>>): seq<Byte>
    requires |gaps| == |tokens| + 1
  {
    if tokens == [] then gaps[0] else gaps[0] + tokens[0] + Spread(tokens[1..], gaps[1..])
  }

  lemma {:induction false} SkipBlank(g: seq<Byte>, s: seq<Byte>)
    requires Blank(g) && Closed(s)
    ensures Closed(g + s) && Compact(g + s) == Compact(s)
  {
    if g == [] {
      assert g + s == s;
    } else {
      SkipBlank(g[1..], s);
      assert (g + s)[1..] == g[1..] + s;
    }
  }

  lemma {:induction false} KeepVisible(t: seq<Byte>, s: seq<Byte>)
    requires (forall i | 0 <= i < |t| :: t[i] != QUOTE && Visible(t[i])) && Closed(s)
    ensures Closed(t + s) && Compact(t + s) == t + Compact(s)
  {
    if t == [] {
      assert t + s == s;
    } else {
      KeepVisible(t[1..], s);
      assert (t + s)[1..] == t[1..] + s;
      assert t + Compact(s) == [t[0]] + (t[1..] + Compact(s));
    }
  }

  lemma {:induction false} QuoteEnds(t: seq<Byte>, s: seq<Byte>, i: nat)
    requires |t| >= 2 && t[|t| - 1] == QUOTE && 0 < i <= |t| - 1 && forall j | 0 < j < |t| - 1 :: t[j] != QUOTE
    ensures NextQuote(t + s, i) == |t| - 1
    decreases |t| - i
  {
    if i < |t| - 1 {
      QuoteEnds(t, s, i + 1);
    }
  }

  lemma KeepToken(t: seq<Byte>, s: seq<Byte>)
    requires Token(t) && Closed(s)
    ensures Closed(t + s) && Compact(t + s) == t + Compact(s)
  {
    if forall i | 0 <= i < |t| :: t[i] != QUOTE && Visible(t[i]) {
      KeepVisible(t, s);
    } else {
      QuoteEnds(t, s, 1);
      assert (t + s)[|t|..] == s && (t + s)[..|t|] == t;
    }
  }

  // Whatever the blanks between the tokens, what is left is the tokens.
  lemma {:induction false} CompactOfSpread(tokens: seq<seq<Byte>>, gaps: seq<seq<Byte>>)
    requires |gaps| == |tokens| + 1 && Tokens(tokens) && forall i | 0 <= i < |gaps| :: Blank(gaps[i])
    ensures Closed(Spread(tokens, gaps)) && Compact(Spread(tokens, gaps)) == Flatten(tokens)
  {
    hide Token, Blank;
    if tokens == [] {
      SkipBlank(gaps[0], []);
      assert gaps[0] + [] == gaps[0];
    } else {
      var rest := Spread(tokens[1..], gaps[1..]);
      CompactOfSpread(tokens[1..], gaps[1..]);
      KeepToken(tokens[0], rest);
      SkipBlank(gaps[0], tokens[0] + rest);
      assert gaps[0] + tokens[0] + rest == gaps[0] + (tokens[0] + rest);
    }
  }

  // And closing up again changes nothing.
  lemma {:induction false} CompactOfFlat(tokens: seq<seq<Byte>>)
    requires Tokens(tokens)
    ensures Closed(Flatten(tokens)) && Compact(Flatten(tokens)) == Flatten(tokens)
  {
    hide Token;
    if tokens != [] {
      CompactOfFlat(tokens[1..]);
      KeepToken(tokens[0], Flatten(tokens[1..]));
    }
  }

  lemma {:induction false} NextQuoteShift(s: seq<Byte>, p: nat, i: nat)
    requires p + i <= |s|
    ensures NextQuote(s, p + i) == p + NextQuote(s[p..], i)
    decreases |s| - i
  {
    if p + i < |s| && s[p + i] != QUOTE {
      NextQuoteShift(s, p, i + 1);
    }
  }

  // What has been written and what there is to read make up the result.
  ghost predicate Closing(s: seq<Byte>, done: seq<Byte>, p: nat) {
    p <= |s| && Closed(s) && Closed(s[p..]) && Compact(s) == done + Compact(s[p..])
  }

  lemma CloseOne(s: seq<Byte>, done: seq<Byte>, p: nat)
    requires Closing(s, done, p) && p < |s| && s[p] != QUOTE
    ensures Closing(s, if Visible(s[p]) then done + [s[p]] else done, p + 1)
  {
    assert s[p..][1..] == s[p + 1..];
    var rest := Compact(s[p + 1..]);
    assert done + ([s[p]] + rest) == (done + [s[p]]) + rest;
    assert [] + rest == rest;
  }

  lemma Quotation(t: seq<Byte>)
    requires Closed(t) && t != [] && t[0] == QUOTE
    ensures var e := NextQuote(t, 1); 0 < e < |t| && Closed(t[e + 1..]) && Compact(t) == t[..e + 1] + Compact(t[e + 1..])
  {
    hide NextQuote, Visible;
    assert t[0] == QUOTE;
  }

  lemma SliceOfDrop(s: seq<Byte>, p: nat, i: nat)
    requires p <= i <= |s|
    ensures s[p..][..i - p] == s[p..i] && s[p..][i - p..] == s[i..]
  {
  }

  lemma Regroup(a: seq<Byte>, b: seq<Byte>, c: seq<Byte>)
    ensures a + (b + c) == (a + b) + c
  {
  }

  lemma Joined(whole: seq<Byte>, done: seq<Byte>, rest: seq<Byte>, a: seq<Byte>, b: seq<Byte>)
    requires whole == done + rest && rest == a + b
    ensures whole == (done + a) + b
  {
    Regroup(done, a, b);
  }

  lemma CloseQuotation(s: seq<Byte>, done: seq<Byte>, p: nat)
    requires Closing(s, done, p) && p < |s| && s[p] == QUOTE
    ensures p < NextQuote(s, p + 1) < |s|
    ensures Closing(s, done + s[p..NextQuote(s, p + 1) + 1], NextQuote(s, p + 1) + 1)
  {
    hide Closed, Compact, NextQuote;
    var t := s[p..];
    var e := NextQuote(t, 1);
    NextQuoteShift(s, p, 1);
    Quotation(t);
    SliceOfDrop(s, p, p + e + 1);
    Joined(Compact(s), done, Compact(t), t[..e + 1], Compact(t[e + 1..]));
  }

  ghost predicate Unescaped(s: seq<Byte>, n: nat) {
    n <= |s| && forall i | 0 <= i < n :: s[i] != BACKSLASH
  }

  // From p on the text s still stands where it was, and there is no backslash in its place.
  ghost predicate Ahead(now: seq<Byte>, s: seq<Byte>, p: nat) {
    p <= |s| < |now| && now[p..|s|] == s[p..] && Unescaped(now, |s|)
  }

  // Behind the head the text s has been moved down from one place to p; what follows the text is as it was.
  ghost predicate Moved(now: seq<Byte>, head: seq<Byte>, tail: seq<Byte>, s: seq<Byte>, from: nat, p: nat) {
    && from <= p && |head| <= from && Ahead(now, s, p)
    && now[..|head| + (p - from)] == head + s[from..p] && now[|s|..] == tail
  }

  lemma AheadNow(now: seq<Byte>, s: seq<Byte>, p: nat)
    requires Ahead(now, s, p) && p < |s|
    ensures p < |now| && now[p] == s[p] && now[p] != BACKSLASH
  {
    assert now[p] == now[p..|s|][0];
  }

  // One character is moved down.
  lemma AheadOn(now: seq<Byte>, s: seq<Byte>, p: nat, length: nat)
    requires Ahead(now, s, p) && p < |s| && length <= p
    ensures length < |now| && Ahead(now[length := s[p]], s, p + 1) && now[length := s[p]][|s|..] == now[|s|..]
    ensures now[length := s[p]][..length + 1] == now[..length] + [s[p]]
  {
    AheadNow(now, s, p);
    var next := now[length := s[p]];
    assert next[p + 1..|s|] == now[p..|s|][1..];
    assert s[p + 1..] == s[p..][1..];
  }

  // One character is left out.
  lemma AheadSkips(now: seq<Byte>, s: seq<Byte>, p: nat)
    requires Ahead(now, s, p) && p < |s|
    ensures Ahead(now, s, p + 1)
  {
    assert now[p + 1..|s|] == now[p..|s|][1..];
    assert s[p + 1..] == s[p..][1..];
  }

  lemma MovedOn(now: seq<Byte>, head: seq<Byte>, tail: seq<Byte>, s: seq<Byte>, from: nat, p: nat)
    requires Moved(now, head, tail, s, from, p) && p < |s|
    ensures |head| + (p - from) < |now| && Moved(now[|head| + (p - from) := s[p]], head, tail, s, from, p + 1)
  {
    hide Ahead;
    AheadOn(now, s, p, |head| + (p - from));
    Longer(s, from, p);
    Regroup(head, s[from..p], [s[p]]);
  }

  // One character more; the next one is still to be read where it was.
  method MoveNext(json: array<Byte>, p: nat, length: nat, ghost head: seq<Byte>, ghost tail: seq<Byte>, ghost s: seq<Byte>, ghost from: nat)
    requires Moved(json[..], head, tail, s, from, p) && p < |s| && length == |head| + (p - from)
    modifies json
    ensures Moved(json[..], head, tail, s, from, p + 1)
    ensures p < |s| < json.Length && (p + 1 < |s| ==> json[p + 1] == s[p + 1] && json[p + 1] != BACKSLASH)
  {
    MovedParts(json[..], head, tail, s, from, p);
    hide Moved, Ahead;
    AheadNow(json[..], s, p);
    MovedOn(json[..], head, tail, s, from, p);
    ghost var now := json[..];
    json[length] := json[p];
    assert json[..] == now[length := s[p]];
    MovedParts(json[..], head, tail, s, from, p + 1);
    if p + 1 < |s| {
      AheadNow(json[..], s, p + 1);
    }
  }

  lemma MovedParts(now: seq<Byte>, head: seq<Byte>, tail: seq<Byte>, s: seq<Byte>, from: nat, p: nat)
    requires Moved(now, head, tail, s, from, p)
    ensures from <= p <= |s| < |now| && |head| <= from && Ahead(now, s, p)
    ensures now[..|head| + (p - from)] == head + s[from..p] && now[|s|..] == tail
  {
  }

  // A quotation is copied as it is.
  method CopyQuotation(json: array<Byte>, from: nat, to: nat, ghost head: seq<Byte>, ghost tail: seq<Byte>, ghost s: seq<Byte>)
    returns (p: nat, length: nat)
    requires Moved(json[..], head, tail, s, from, from) && |head| == to
    requires 0 < from < |s| && s[from] == QUOTE && NextQuote(s, from + 1) < |s|
    modifies json
    ensures p == NextQuote(s, from + 1) + 1 && length == to + (p - from)
    ensures Moved(json[..], head, tail, s, from, p)
  {
    hide NextQuote, Moved, Ahead;
    ghost var e := NextQuote(s, from + 1);
    QuoteAt(s, from + 1);
    Before(json[..], head, tail, s, from);
    p, length := from, to;
    var previous := json[p - 1];
    MoveNext(json, p, length, head, tail, s, from);
    p, length := p + 1, length + 1;
    while json[p] != QUOTE || previous == BACKSLASH
      invariant from < p <= e < |s| < json.Length && s[e] == QUOTE && length == to + (p - from)
      invariant Moved(json[..], head, tail, s, from, p)
      invariant json[p] == s[p] && json[p] != BACKSLASH && previous != BACKSLASH
      decreases e - p
    {
      previous := json[p];
      MoveNext(json, p, length, head, tail, s, from);
      p, length := p + 1, length + 1;
    }
    FirstQuote(s, from + 1, p);
    MoveNext(json, p, length, head, tail, s, from);
    p, length := p + 1, length + 1;
  }

  lemma Before(now: seq<Byte>, head: seq<Byte>, tail: seq<Byte>, s: seq<Byte>, from: nat)
    requires Moved(now, head, tail, s, from, from) && 0 < from < |s|
    ensures |s| < |now| && now[from - 1] != BACKSLASH && now[from] == s[from] != BACKSLASH
  {
    AheadNow(now, s, from);
  }

  lemma MovesNothing(now: seq<Byte>, head: seq<Byte>, tail: seq<Byte>, s: seq<Byte>, from: nat)
    requires Ahead(now, s, from) && |head| <= from && now[..|head|] == head && now[|s|..] == tail
    ensures Moved(now, head, tail, s, from, from)
  {
    assert s[from..from] == [];
  }

  lemma Longer(s: seq<Byte>, i: nat, j: nat)
    requires i <= j < |s|
    ensures s[i..j + 1] == s[i..j] + [s[j]]
  {
  }

  // lib_json_cohesion: closes up the text that ends before a zero, in place.
  method Cohesion(json: array<Byte>, ghost n: nat) returns (length: nat)
    requires n < json.Length && json[n] == 0 && (forall i | 0 <= i < n :: json[i] != 0 && json[i] != BACKSLASH)
    requires Closed(json[..n]) && json[0] != QUOTE
    modifies json
    ensures length <= n && json[length] == 0 && json[..length] == Compact(old(json[..n]))
    ensures forall i | n < i < json.Length :: json[i] == old(json[i])
  {
    hide Closed, Compact, NextQuote, Closing, Moved, Ahead;
    ghost var s, tail := json[..n], json[n..];
    Unclosed(s);
    AllAhead(json[..], n);
    assert json[..0] == [];
    var p := 0;
    length := 0;
    while json[p] != 0
      invariant length <= p <= n < json.Length && Closing(s, json[..length], p)
      invariant Ahead(json[..], s, p) && json[..][n..] == tail
      invariant json[p] == if p < n then s[p] else 0
      invariant p > 0 || json[p] != QUOTE
      decreases n - p
    {
      ghost var now := json[..];
      if json[p] == QUOTE {
        CloseQuotation(s, json[..length], p);
        ghost var from, head := p, json[..length];
        MovesNothing(now, head, tail, s, p);
        p, length := CopyQuotation(json, p, length, head, tail, s);
        MovedParts(json[..], head, tail, s, from, p);
        assert json[..length] == json[..][..length];
      } else {
        CloseOne(s, json[..length], p);
        if Visible(json[p]) {
          AheadOn(now, s, p, length);
          json[length] := json[p];
          assert json[..] == now[length := s[p]] && json[..length + 1] == json[..][..length + 1] && json[..length] == now[..length];
          length := length + 1;
        } else {
          AheadSkips(now, s, p);
        }
        p := p + 1;
      }
      Next(json[..], s, p, tail);
    }
    ghost var now := json[..];
    json[length] := 0;
    assert json[..length] == now[..length];
    AllClosed(s, json[..length], p);
    TailStays(old(json[..]), now, json[..], n, length);
  }

  lemma TailStays(before: seq<Byte>, now: seq<Byte>, after: seq<Byte>, n: nat, length: nat)
    requires |before| == |now| == |after| && length <= n < |now| && now[n..] == before[n..] && after == now[length := 0]
    ensures forall i | n < i < |after| :: after[i] == before[i]
  {
    forall i | n < i < |after| ensures after[i] == before[i] {
      assert now[n..][i - n] == before[n..][i - n];
    }
  }

  lemma AllAhead(now: seq<Byte>, n: nat)
    requires n < |now| && forall i | 0 <= i < n :: now[i] != BACKSLASH
    ensures Ahead(now, now[..n], 0)
  {
  }

  lemma Next(now: seq<Byte>, s: seq<Byte>, p: nat, tail: seq<Byte>)
    requires Ahead(now, s, p) && now[|s|..] == tail && tail != []
    ensures p < |now| && now[p] == if p < |s| then s[p] else tail[0]
  {
    if p < |s| {
      AheadNow(now, s, p);
    } else {
      assert now[p] == now[|s|..][0];
    }
  }

  lemma Unclosed(s: seq<Byte>)
    requires Closed(s)
    ensures Closing(s, [], 0)
  {
    assert s[0..] == s;
    assert [] + Compact(s) == Compact(s);
  }

  lemma AllClosed(s: seq<Byte>, done: seq<Byte>, p: nat)
    requires Closing(s, done, p) && p == |s|
    ensures done == Compact(s)
  {
    assert s[p..] == [];
    assert done + [] == done;
  }

  // ---- objects ----------------------------------------------------------------------------------

  // A value: an object, a string, or a word (a number, true, false, null).
  datatype Value = Object(members: seq<Member>) | Text(chars: seq<Byte>) | Word(chars: seq<Byte>)
  datatype Member = Member(key: seq<Byte>, value: Value)

  function Quoted(s: seq<Byte>): seq<Byte> {
    [0x22] + s + [0x22]
  }

  // The closed-up text of a value.
  function Render(v: Value): seq<Byte>
    decreases v
  {
    match v
    case Object(ms) => if ms == [] then [0x7B, 0x7D] else [0x7B] + RenderFrom(ms)
    case Text(s) => Quoted(s)
    case Word(s) => s
  }

  function RenderMember(m: Member): seq<Byte>
    decreases m
  {
    Quoted(m.key) + [0x3A] + Render(m.value)
  }

  // Members up to the end of their object.
  function RenderFrom(ms: seq<Member>): seq<Byte>
    requires ms != []
    decreases ms
  {
    RenderMember(ms[0]) + (if |ms| == 1 then [0x7D] else [0x2C] + RenderFrom(ms[1..]))
  }

  // Characters of a string or a key: no quotation mark, no backslash and no brace.
  predicate PlainChars(s: seq<Byte>) {
    forall i | 0 <= i < |s| :: s[i] != QUOTE && s[i] != BACKSLASH && s[i] != OPEN && s[i] != CLOSE && s[i] != 0
  }

  predicate Plain(v: Value)
    decreases v
  {
    match v
    case Object(ms) => forall m | m in ms :: PlainChars(m.key) && Plain(m.value)
    case Text(s) => PlainChars(s)
    case Word(s) => s != [] && PlainChars(s) && forall i | 0 <= i < |s| :: s[i] != COMMA && Visible(s[i])
  }

  predicate PlainMember(m: Member) {
    PlainChars(m.key) && Plain(m.value)
  }

  // ---- tokens of a value -------------------------------------------------------------------------

  function TokensOf(v: Value): seq<seq<Byte>>
    decreases v
  {
    match v
    case Object(ms) => if ms == [] then [[OPEN], [CLOSE]] else [[OPEN]] + TokensFrom(ms)
    case Text(s) => [Quoted(s)]
    case Word(s) => [s]
  }

  function TokensFrom(ms: seq<Member>): seq<seq<Byte>>
    requires ms != []
    decreases ms
  {
    [Quoted(ms[0].key)] + [[COLON]] + TokensOf(ms[0].value) + (if |ms| == 1 then [[CLOSE]] else [[COMMA]] + TokensFrom(ms[1..]))
  }

  lemma {:induction false} FlattenSum(a: seq<seq<Byte>>, b: seq<seq<Byte>>)
    ensures Flatten(a + b) == Flatten(a) + Flatten(b)
  {
    if a == [] {
      assert a + b == b;
    } else {
      FlattenSum(a[1..], b);
      assert (a + b)[1..] == a[1..] + b;
      Regroup(a[0], Flatten(a[1..]), Flatten(b));
    }
  }

  lemma FlattenOne(t: seq<Byte>)
    ensures Flatten([t]) == t
  {
    assert [t][1..] == [];
    assert t + [] == t;
  }

  lemma {:induction false} TokensAreText(v: Value)
    requires Plain(v)
    ensures Flatten(TokensOf(v)) == Render(v) && Tokens(TokensOf(v))
    decreases v
  {
    match v
    case Object(ms) =>
      FlattenOne([OPEN]);
      FlattenOne([CLOSE]);
      if ms == [] {
        FlattenSum([[OPEN]], [[CLOSE]]);
        assert [[OPEN]] + [[CLOSE]] == [[OPEN], [CLOSE]];
      } else {
        assert forall m | m in ms :: PlainMember(m);
        TokensFromText(ms);
        FlattenSum([[OPEN]], TokensFrom(ms));
      }
    case Text(s) =>
      FlattenOne(Quoted(s));
    case Word(s) =>
      FlattenOne(s);
  }

  lemma {:induction false} TokensFromText(ms: seq<Member>)
    requires ms != [] && forall m | m in ms :: PlainMember(m)
    ensures Flatten(TokensFrom(ms)) == RenderFrom(ms) && Tokens(TokensFrom(ms))
    decreases ms
  {
    var m := ms[0];
    assert PlainMember(m);
    TokensAreText(m.value);
    FlattenOne(Quoted(m.key));
    FlattenOne([COLON]);
    FlattenOne([CLOSE]);
    FlattenOne([COMMA]);
    var rest := if |ms| == 1 then [[CLOSE]] else [[COMMA]] + TokensFrom(ms[1..]);
    if |ms| > 1 {
      assert forall x | x in ms[1..] :: x in ms;
      TokensFromText(ms[1..]);
      FlattenSum([[COMMA]], TokensFrom(ms[1..]));
    }
    FlattenSum([Quoted(m.key)], [[COLON]]);
    FlattenSum([Quoted(m.key)] + [[COLON]], TokensOf(m.value));
    FlattenSum([Quoted(m.key)] + [[COLON]] + TokensOf(m.value), rest);
    QuotedIsToken(m.key);
  }

  lemma QuotedIsToken(s: seq<Byte>)
    requires PlainChars(s)
    ensures Token(Quoted(s))
  {
  }

  // Any spacing of an object closes up to its closed-up text, which closes up to itself.
  lemma Cohesive(v: Value, gaps: seq<seq<Byte>>)
    requires Plain(v) && |gaps| == |TokensOf(v)| + 1 && forall i | 0 <= i < |gaps| :: Blank(gaps[i])
    ensures Closed(Spread(TokensOf(v), gaps)) && Compact(Spread(TokensOf(v), gaps)) == Render(v)
    ensures Closed(Render(v)) && Compact(Render(v)) == Render(v)
  {
    TokensAreText(v);
    CompactOfSpread(TokensOf(v), gaps);
    CompactOfFlat(TokensOf(v));
  }

  // ---- braces -----------------------------------------------------------------------------------

  // Braces opened and not closed.
  function Level(s: seq<Byte>): int {
    if s == [] then 0
    else Level(s[..|s| - 1]) + (if s[|s| - 1] == OPEN then 1 else if s[|s| - 1] == CLOSE then -1 else 0)
  }

  // As many close as open, and none before its own opens.
  ghost predicate Nested(s: seq<Byte>) {
    Level(s) == 0 && forall i | 0 <= i <= |s| :: Level(s[..i]) >= 0
  }

  lemma {:induction false} LevelSum(a: seq<Byte>, b: seq<Byte>)
    ensures Level(a + b) == Level(a) + Level(b)
  {
    if b == [] {
      assert a + b == a;
    } else {
      LevelSum(a, b[..|b| - 1]);
      assert (a + b)[..|a + b| - 1] == a + b[..|b| - 1];
    }
  }

  lemma NestedSum(a: seq<Byte>, b: seq<Byte>)
    requires Nested(a) && Nested(b)
    ensures Nested(a + b)
  {
    LevelSum(a, b);
    forall i | 0 <= i <= |a + b| ensures Level((a + b)[..i]) >= 0 {
      if i <= |a| {
        assert (a + b)[..i] == a[..i];
      } else {
        assert (a + b)[..i] == a + b[..i - |a|];
        LevelSum(a, b[..i - |a|]);
      }
    }
  }

  lemma {:induction false} PlainIsNested(s: seq<Byte>)
    requires forall i | 0 <= i < |s| :: s[i] != OPEN && s[i] != CLOSE
    ensures Nested(s)
  {
    if s != [] {
      PlainIsNested(s[..|s| - 1]);
      forall i | 0 <= i <= |s| ensures Level(s[..i]) >= 0 {
        if i == |s| {
          assert s[..i] == s;
        } else {
          assert s[..i] == s[..|s| - 1][..i];
        }
      }
    }
  }

  // Within braces the level is at least one until the last of them.
  ghost predicate Braced(s: seq<Byte>) {
    |s| >= 2 && s[0] == OPEN && Level(s) == 0 && forall i | 0 < i < |s| :: Level(s[..i]) >= 1
  }

  lemma BracedAround(s: seq<Byte>)
    requires Nested(s)
    ensures Braced([OPEN] + s + [CLOSE])
  {
    var all := [OPEN] + s + [CLOSE];
    LevelOne(OPEN);
    LevelOne(CLOSE);
    LevelSum([OPEN], s);
    LevelSum([OPEN] + s, [CLOSE]);
    forall i | 0 < i < |all| ensures Level(all[..i]) >= 1 {
      assert all[..i] == [OPEN] + s[..i - 1];
      LevelSum([OPEN], s[..i - 1]);
    }
  }

  lemma LevelOne(b: Byte)
    ensures Level([b]) == if b == OPEN then 1 else if b == CLOSE then -1 else 0
  {
    assert [b][..0] == [];
  }

  lemma BracedIsNested(s: seq<Byte>)
    requires Braced(s)
    ensures Nested(s)
  {
    forall i | 0 <= i <= |s| ensures Level(s[..i]) >= 0 {
      if i == |s| {
        assert s[..i] == s;
      }
    }
  }

  // The members of an object without its braces.
  function Inner(ms: seq<Member>): seq<Byte>
    requires ms != []
    decreases ms
  {
    RenderMember(ms[0]) + (if |ms| == 1 then [] else [COMMA] + Inner(ms[1..]))
  }

  lemma {:induction false} InnerIs(ms: seq<Member>)
    requires ms != []
    ensures RenderFrom(ms) == Inner(ms) + [CLOSE]
  {
    if |ms| > 1 {
      InnerIs(ms[1..]);
    }
    hide RenderMember;
  }

  lemma {:induction false} ValueIsNested(v: Value)
    requires Plain(v)
    ensures Nested(Render(v)) && (v.Object? ==> Braced(Render(v)))
    decreases v, 1
  {
    match v
    case Object(ms) =>
      assert forall m | m in ms :: PlainMember(m);
      if ms == [] {
        PlainIsNested([]);
        BracedAround([]);
        assert [OPEN] + [] + [CLOSE] == [OPEN, CLOSE];
      } else {
        InnerNested(ms);
        InnerIs(ms);
        BracedAround(Inner(ms));
        Regroup([OPEN], Inner(ms), [CLOSE]);
      }
      BracedIsNested(Render(v));
    case Text(s) => PlainIsNested(Quoted(s));
    case Word(s) => PlainIsNested(s);
  }

  lemma {:induction false} InnerNested(ms: seq<Member>)
    requires ms != [] && forall m | m in ms :: PlainMember(m)
    ensures Nested(Inner(ms))
    decreases ms
  {
    var m := ms[0];
    assert PlainMember(m);
    PlainIsNested(Quoted(m.key) + [COLON]);
    ValueIsNested(m.value);
    NestedSum(Quoted(m.key) + [COLON], Render(m.value));
    if |ms| == 1 {
      assert RenderMember(m) + [] == RenderMember(m);
    } else {
      assert forall x | x in ms[1..] :: x in ms;
      InnerNested(ms[1..]);
      PlainIsNested([COMMA]);
      NestedSum([COMMA], Inner(ms[1..]));
      NestedSum(RenderMember(m), [COMMA] + Inner(ms[1..]));
    }
  }

  // ---- walking ----------------------------------------------------------------------------------

  datatype Kind = Unknown | String | Number | ObjectKind | Boolean | Null

  // What the structure says the value is: a place in the text, a truth, or a number written at a place.
  datatype Content = Nothing | At(place: nat) | Truth(value: bool) | Digits(place: nat)

  datatype Item = Item(kind: Kind, key: nat, value: Content, length: nat, next: nat)

  const NO_NEXT := 0

  function Lower(b: Byte): Byte {
    if 0x41 <= b <= 0x5A then b + 0x20 else b
  }

  function KindOfWord(b: Byte): Kind {
    if Lower(b) == 0x6E then Null
    else if Lower(b) == 0x74 || Lower(b) == 0x66 then Boolean
    else if b < 0x3A then Number
    else Unknown
  }

  // s stands in the text at a place.
  ghost predicate Stands(text: seq<Byte>, at: nat, s: seq<Byte>) {
    at + |s| <= |text| && text[at..at + |s|] == s
  }

  lemma StandsParts(text: seq<Byte>, at: nat, a: seq<Byte>, b: seq<Byte>)
    requires Stands(text, at, a + b)
    ensures Stands(text, at, a) && Stands(text, at + |a|, b)
  {
    assert text[at..at + |a|] == text[at..at + |a + b|][..|a|];
    assert text[at + |a|..at + |a| + |b|] == text[at..at + |a + b|][|a|..];
  }

  lemma StandsAt(text: seq<Byte>, at: nat, s: seq<Byte>, i: nat)
    requires Stands(text, at, s) && i < |s|
    ensures at + i < |text| && text[at + i] == s[i]
  {
    assert text[at + i] == text[at..at + |s|][i];
  }

  // By its first letter, n, t or f, large or small, a word is null or a truth, t the true one; what begins with a
  // digit or a sign is a number.
  function WordKind(b: Byte): Kind {
    if b in {0x6E, 0x4E} then Null else if b in {0x74, 0x54, 0x66, 0x46} then Boolean else if b <= 0x39 then Number else Unknown
  }

  // The item describes the member.
  ghost predicate Describes(text: seq<Byte>, item: Item, m: Member) {
    && Stands(text, item.key, Quoted(m.key))
    && match m.value
       case Object(_) => item.kind == ObjectKind && item.value.At? && item.length == |Render(m.value)| && Stands(text, item.value.place, Render(m.value))
       case Text(s) => item.kind == String && item.value.At? && item.length == |s| && Stands(text, item.value.place, s)
       case Word(s) =>
         && s != [] && item.kind == WordKind(s[0])
         && (item.kind == Boolean ==> item.value == Truth(s[0] in {0x74, 0x54}))
         && (item.kind == Number ==> item.value.Digits? && Stands(text, item.value.place, s))
         && (item.kind == Null || item.kind == Unknown ==> item.value.At? && Stands(text, item.value.place, s))
  }

  // What a place has to look like for a member to be read there: the member, and then the end of its
  // object or the next one.
  ghost predicate Reads(text: seq<Byte>, at: nat, ms: seq<Member>) {
    ms != [] && (forall m | m in ms :: PlainMember(m)) && Stands(text, at, RenderFrom(ms))
  }

  function Rest(ms: seq<Member>): seq<Byte>
    requires ms != []
    decreases ms, 1
  {
    if |ms| == 1 then [CLOSE] else [COMMA] + RenderFrom(ms[1..])
  }

  lemma MemberParts(text: seq<Byte>, at: nat, ms: seq<Member>)
    requires Reads(text, at, ms)
    ensures ms != []
    ensures var m := ms[0];
            && Stands(text, at, Quoted(m.key)) && Stands(text, at + |m.key| + 2, [COLON])
            && Stands(text, at + |m.key| + 3, Render(m.value))
            && Stands(text, at + |m.key| + 3 + |Render(m.value)|, Rest(ms))
            && PlainMember(m) && |RenderMember(m)| == |m.key| + 3 + |Render(m.value)|
  {
    var m := ms[0];
    StandsParts(text, at, RenderMember(m), Rest(ms));
    StandsParts(text, at, Quoted(m.key) + [COLON], Render(m.value));
    StandsParts(text, at, Quoted(m.key), [COLON]);
  }

  lemma NextMember(text: seq<Byte>, key: nat, at: nat, ms: seq<Member>)
    requires Reads(text, key, ms) && ms != [] && Stands(text, at, Rest(ms))
    ensures at < |text| && text[at] == if |ms| == 1 then CLOSE else COMMA
    ensures |ms| > 1 ==> Reads(text, at + 1, ms[1..])
  {
    if |ms| > 1 {
      StandsParts(text, at, [COMMA], RenderFrom(ms[1..]));
      assert forall x | x in ms[1..] :: x in ms;
    }
    StandsAt(text, at, Rest(ms), 0);
  }

  // Past the key: the place of the value.
  method PastKey(text: seq<Byte>, at: nat, ghost ms: seq<Member>) returns (place: nat)
    requires Reads(text, at, ms)
    ensures place == at + |ms[0].key| + 3
  {
    MemberParts(text, at, ms);
    ghost var key := Quoted(ms[0].key);
    place := at + 1;
    while true
      invariant at < place < at + |key|
      decreases at + |key| - place
    {
      StandsAt(text, at, key, place - at);
      StandsAt(text, at, key, place - at - 1);
      if text[place] == QUOTE {
        place := place + 1;
        if text[place - 2] != BACKSLASH {
          break;
        }
      }
      place := place + 1;
    }
    place := place + 1;
  }

  lemma TextEnds(text: seq<Byte>, place: nat, s: seq<Byte>, n: nat)
    requires PlainChars(s) && Stands(text, place, Quoted(s)) && 0 < n <= |s| + 1
    ensures place + n < |text| && (text[place + n] == QUOTE <==> n == |s| + 1) && text[place + n - 1] != BACKSLASH
    ensures Stands(text, place + 1, s)
  {
    StandsAt(text, place, Quoted(s), n);
    StandsAt(text, place, Quoted(s), n - 1);
    assert Quoted(s) == [QUOTE] + (s + [QUOTE]);
    StandsParts(text, place, [QUOTE], s + [QUOTE]);
    StandsParts(text, place + 1, s, [QUOTE]);
  }

  lemma BraceCount(text: seq<Byte>, place: nat, s: seq<Byte>, n: nat)
    requires Braced(s) && Stands(text, place, s) && n + 1 < |s|
    ensures place + n + 1 < |text|
    ensures Level(s[..n + 2]) == Level(s[..n + 1]) + (if text[place + n + 1] == OPEN then 1 else if text[place + n + 1] == CLOSE then -1 else 0)
    ensures Level(s[..n + 2]) == 0 <==> n + 2 == |s|
  {
    StandsAt(text, place, s, n + 1);
    assert s[..n + 2][..n + 1] == s[..n + 1];
    if n + 2 == |s| {
      assert s[..n + 2] == s;
    }
  }

  // Characters of a string or an object, up to what follows it.
  method Skip(text: seq<Byte>, place: nat, ghost v: Value) returns (length: nat)
    requires Plain(v) && !v.Word? && Stands(text, place, Render(v))
    ensures length + 1 == |Render(v)|
  {
    ghost var s := Render(v);
    StandsAt(text, place, s, 0);
    length := 0;
    if text[place] == OPEN {
      ValueIsNested(v);
      var o := 1;
      assert s[..1][..0] == [];
      while o > 0
        invariant length < |s| && o == Level(s[..length + 1]) && (o == 0 <==> length + 1 == |s|)
        decreases |s| - length
      {
        BraceCount(text, place, s, length);
        length := length + 1;
        if text[place + length] == OPEN {
          o := o + 1;
        }
        if text[place + length] == CLOSE {
          o := o - 1;
        }
      }
    } else {
      TextEnds(text, place, v.chars, 1);
      length := 1;
      while text[place + length] != QUOTE || text[place + length - 1] == BACKSLASH
        invariant 0 < length <= |v.chars| + 1
        decreases |v.chars| + 1 - length
      {
        TextEnds(text, place, v.chars, length);
        length := length + 1;
        TextEnds(text, place, v.chars, length);
      }
      TextEnds(text, place, v.chars, length);
    }
  }

  // The characters of a word, up to what follows it.
  method SkipWord(text: seq<Byte>, place: nat, ghost ms: seq<Member>, ghost s: seq<Byte>) returns (next: nat)
    requires ms != [] && Plain(Word(s)) && Stands(text, place, s) && Stands(text, place + |s|, Rest(ms))
    ensures next == if |ms| == 1 then NO_NEXT else place + |s| + 1
  {
    StandsAt(text, place + |s|, Rest(ms), 0);
    StandsAt(text, place, s, 0);
    var at := place;
    while text[at] != 0 && text[at] != COMMA
      invariant place <= at <= place + |s|
      invariant at < place + |s| ==> text[at] == s[at - place]
      decreases place + |s| - at
    {
      if at + 1 < place + |s| {
        StandsAt(text, place, s, at + 1 - place);
      }
      at := at + 1;
      if text[at - 1] == CLOSE {
        return NO_NEXT;
      }
    }
    return at + 1;
  }

  lemma FirstOfValue(text: seq<Byte>, place: nat, v: Value)
    requires Plain(v) && Stands(text, place, Render(v))
    ensures place < |text| && Render(v) != [] && text[place] == Render(v)[0]
    ensures v.Object? <==> text[place] == OPEN
    ensures v.Text? <==> text[place] == QUOTE
  {
    StandsAt(text, place, Render(v), 0);
  }

  // lib_json_parse: reads the member whose key starts at a place.
  method Parse(text: seq<Byte>, key: nat, ghost ms: seq<Member>) returns (item: Item)
    requires Reads(text, key, ms)
    ensures item.key == key && Describes(text, item, ms[0])
    ensures item.next == if |ms| == 1 then NO_NEXT else key + |RenderMember(ms[0])| + 1
    ensures |ms| > 1 ==> Reads(text, item.next, ms[1..])
  {
    hide Reads, PlainChars, Braced, RenderFrom, Rest, Visible, Stands;
    MemberParts(text, key, ms);
    ghost var v := ms[0].value;
    var place := PastKey(text, key, ms);
    FirstOfValue(text, place, v);
    NextMember(text, key, place + |Render(v)|, ms);
    if text[place] == OPEN {
      var length := Skip(text, place, v);
      length := length + 1;
      var next := if text[place + length] == CLOSE then NO_NEXT else place + length + 1;
      item := Item(ObjectKind, key, At(place), length, next);
    } else if text[place] == QUOTE {
      var length := Skip(text, place, v);
      length := length + 1;
      var next := if text[place + length] == CLOSE then NO_NEXT else place + length + 1;
      TextEnds(text, place, v.chars, 1);
      item := Item(String, key, At(place + 1), length - 2, next);
    } else {
      var kind := KindOfWord(text[place]);
      var value := if kind == Boolean then Truth(Lower(text[place]) == 0x74) else if kind == Number then Digits(place) else At(place);
      var next := SkipWord(text, place, ms, v.chars);
      item := Item(kind, key, value, 0, next);
    }
  }

  // lib_json_parse first looks for the quotation mark that ends a key, from behind the place where the key
  // begins. In the text of an object, up to the zero behind it, there is one if and only if the object has
  // members: of an empty object it leaves the text.
  lemma KeyEnds(ms: seq<Member>)
    requires Plain(Object(ms))
    ensures (exists i: nat :: 1 < i < |Render(Object(ms)) + [0]| && (Render(Object(ms)) + [0])[i] == QUOTE) <==> ms != []
  {
    var text := Render(Object(ms)) + [0];
    if ms == [] {
      assert text == [OPEN, CLOSE, 0];
    } else {
      assert Stands(text, 0, Render(Object(ms)));
      StandsParts(text, 0, [OPEN], RenderFrom(ms));
      assert forall m | m in ms :: PlainMember(m);
      MemberParts(text, 1, ms);
      StandsAt(text, 1, Quoted(ms[0].key), |ms[0].key| + 1);
      assert text[|ms[0].key| + 2] == QUOTE;
    }
  }

  lemma ObjectStarts(text: seq<Byte>, ms: seq<Member>)
    requires ms != [] && Plain(Object(ms)) && Stands(text, 0, Render(Object(ms)))
    ensures |text| > 0 && text[0] == OPEN && Reads(text, 1, ms)
  {
    assert forall m | m in ms :: PlainMember(m);
    StandsParts(text, 0, [OPEN], RenderFrom(ms));
    StandsAt(text, 0, [OPEN], 0);
  }

  // lib_json and lib_json_next: the members of the object at the start of a text, one after the other.
  method Walk(text: seq<Byte>, ghost ms: seq<Member>) returns (items: seq<Item>)
    requires ms != [] && Plain(Object(ms)) && Stands(text, 0, Render(Object(ms)))
    ensures |items| == |ms| && forall i | 0 <= i < |ms| :: Describes(text, items[i], ms[i])
  {
    hide Describes, Reads, Stands, Render, Plain;
    ObjectStarts(text, ms);
    items := [];
    if text[0] != OPEN {
      return;
    }
    var item := Parse(text, 1, ms);
    items := [item];
    assert ms[1..] == ms[|items|..];
    while item.next != NO_NEXT
      invariant 0 < |items| <= |ms| && (item.next == NO_NEXT <==> |items| == |ms|)
      invariant |items| < |ms| ==> Reads(text, item.next, ms[|items|..])
      invariant forall i | 0 <= i < |items| :: Describes(text, items[i], ms[i])
      decreases |ms| - |items|
    {
      ghost var rest := ms[|items|..];
      item := Parse(text, item.next, rest);
      assert rest[1..] == ms[|items| + 1..];
      items := items + [item];
    }
  }
}
