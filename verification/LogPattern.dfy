/** The log pattern parser: what `hps_LogFormatter::init` makes of a pattern. */
module LogPattern {
  import opened Common

  /** A piece of a pattern: a run of literal text, a directive without or with a format in
      braces, and the `%` of a directive whose brace is never closed. */
  datatype Piece = Text(text: string) | Plain(name: string) | Braced(name: string, fmt: string) | Broken

  /** What the scanner hands to the item table. */
  datatype Token = Literal(text: string) | Directive(name: string, fmt: string)

  const PATTERN_ERROR: string := "<<pattern_error>>"

  predicate IsAlpha(c: char) {
    'a' <= c <= 'z' || 'A' <= c <= 'Z'
  }

  /** A closing brace with no opening one in front of it is taken for part of the name. */
  predicate InName(c: char) {
    IsAlpha(c) || c == '}'
  }

  const LOWER: string := "abcdefghijklmnopqrstuvwxyz"
  const UPPER: string := "ABCDEFGHIJKLMNOPQRSTUVWXYZ"

  lemma {:induction false} NameCharIsListed(c: char)
    ensures InName(c) <==> c in LOWER || c in UPPER || c == '}'
  {
    assert forall i :: 0 <= i < 26 ==> LOWER[i] == 'a' + i as char;
    assert forall i :: 0 <= i < 26 ==> UPPER[i] == 'A' + i as char;
  }

  predicate NameBetween(q: string, from: nat, to: nat)
    requires to <= |q|
  {
    forall j :: from <= j < to ==> InName(q[j])
  }

  predicate OpenBetween(q: string, from: nat, to: nat)
    requires to <= |q|
  {
    forall j :: from <= j < to ==> q[j] != '}'
  }

  predicate AllInName(s: string) {
    NameBetween(s, 0, |s|)
  }

  // ----- the grammar -----

  /** Where the name that starts at `from` ends. */
  function NameEnd(q: string, from: nat): (n: nat)
    requires from <= |q|
    ensures from <= n <= |q| && NameBetween(q, from, n) && (n < |q| ==> !InName(q[n]))
    decreases |q| - from
  {
    if from == |q| || !InName(q[from]) then from else NameEnd(q, from + 1)
  }

  /** Where the brace that was opened before `from` is closed; the end if it is not. */
  function BraceEnd(q: string, from: nat): (n: nat)
    requires from <= |q|
    ensures from <= n <= |q| && OpenBetween(q, from, n) && (n < |q| ==> q[n] == '}')
    decreases |q| - from
  {
    if from == |q| || q[from] == '}' then from else BraceEnd(q, from + 1)
  }

  /** The directive that starts after a `%`, unless its brace is not closed. */
  function Read(q: string): (r: Option<Piece>)
    ensures r.Some? ==> |Spell(r.value)| <= 1 + |q|
  {
    var n := NameEnd(q, 0);
    if n < |q| && q[n] == '{' then
      var c := BraceEnd(q, n + 1);
      if c < |q| then Some(Braced(q[..n], q[n + 1..c])) else None
    else Some(Plain(q[..n]))
  }

  function Flush(text: string): seq<Piece> {
    if text == "" then [] else [Text(text)]
  }

  /** The pieces of p, with the text before it still to be flushed. A `%` in front of
      another one is text, and the other one is looked at again. */
  function Parse(p: string, text: string): seq<Piece>
    decreases |p|
  {
    if p == "" then Flush(text)
    else if p[0] != '%' then Parse(p[1..], text + [p[0]])
    else if |p| > 1 && p[1] == '%' then Parse(p[1..], text + ['%'])
    else
      match Read(p[1..])
      case Some(piece) => Flush(text) + ([piece] + Parse(p[|Spell(piece)|..], ""))
      case None => [Broken] + Parse(p[1..], text)
  }

  function ToToken(x: Piece): Token {
    match x
    case Text(t) => Literal(t)
    case Plain(name) => Directive(name, "")
    case Braced(name, fmt) => Directive(name, fmt)
    case Broken => Literal(PATTERN_ERROR)
  }

  function Tokens(ps: seq<Piece>): (ts: seq<Token>)
    ensures |ts| == |ps| && forall i :: 0 <= i < |ps| ==> ts[i] == ToToken(ps[i])
  {
    if ps == [] then [] else [ToToken(ps[0])] + Tokens(ps[1..])
  }

  // ----- the characters of a piece, and maximal munch -----

  function Spell(x: Piece): string {
    match x
    case Text(t) => t
    case Plain(name) => "%" + name
    case Braced(name, fmt) => "%" + name + "{" + fmt + "}"
    case Broken => "%"
  }

  function Spelling(ps: seq<Piece>): string {
    if ps == [] then "" else Spell(ps[0]) + Spelling(ps[1..])
  }

  /** Every `%` of the text is in front of another `%`. */
  predicate PercentsDoubled(text: string, after: string) {
    forall i :: 0 <= i < |text| && text[i] == '%' ==> i + 1 < |text + after| && (text + after)[i + 1] == '%'
  }

  /** The piece is as long as it can be, in front of these characters. */
  predicate Munched(x: Piece, after: string) {
    match x
    case Text(t) => t != "" && PercentsDoubled(t, after)
    case Plain(name) => AllInName(name) && (after != "" ==> !InName(after[0]) && after[0] != '{' && (name == "" ==> after[0] != '%'))
    case Braced(name, fmt) => AllInName(name) && OpenBetween(fmt, 0, |fmt|)
    case Broken => false
  }

  /** The reference: runs of text are whole, and every piece is as long as it can be. */
  predicate MaximalMunch(ps: seq<Piece>) {
    ps == [] ||
    (Munched(ps[0], Spelling(ps[1..])) && (ps[0].Text? && |ps| > 1 ==> !ps[1].Text?) && MaximalMunch(ps[1..]))
  }

  // ----- reading gives the one maximal munch -----

  lemma {:induction false} NameEndIs(q: string, from: nat, n: nat)
    requires from <= n <= |q| && NameBetween(q, from, n) && (n < |q| ==> !InName(q[n]))
    ensures NameEnd(q, from) == n
    decreases |q| - from
  {
    if from < n { NameEndIs(q, from + 1, n); }
  }

  lemma {:induction false} BraceEndIs(q: string, from: nat, n: nat)
    requires from <= n <= |q| && OpenBetween(q, from, n) && (n < |q| ==> q[n] == '}')
    ensures BraceEnd(q, from) == n
    decreases |q| - from
  {
    if from < n { BraceEndIs(q, from + 1, n); }
  }

  lemma {:induction false} ReadBetween(q: string, n: nat, c: nat)
    requires n < c < |q| && NameBetween(q, 0, n) && q[n] == '{' && OpenBetween(q, n + 1, c) && q[c] == '}'
    ensures Read(q) == Some(Braced(q[..n], q[n + 1..c]))
  {
    NameEndIs(q, 0, n);
    BraceEndIs(q, n + 1, c);
  }

  lemma {:induction false} ReadBracedIs(name: string, fmt: string, after: string)
    requires AllInName(name) && OpenBetween(fmt, 0, |fmt|)
    ensures Read(name + ("{" + (fmt + ("}" + after)))) == Some(Braced(name, fmt))
  {
    var tail := "}" + after;
    var inner := fmt + tail;
    var q := name + ("{" + inner);
    var n, c := |name|, |name| + 1 + |fmt|;
    PartsOf(name, "{" + inner);
    assert q[n + 1..] == inner by { PartsOf("{", inner); }
    PartsOf(fmt, tail);
    forall j | n + 1 <= j < c ensures q[j] != '}' {
      assert q[j] == inner[j - n - 1];
    }
    assert q[c] == inner[|fmt|] == tail[0];
    assert q[n + 1..c] == inner[..|fmt|];
    ReadBetween(q, n, c);
  }

  lemma {:induction false} PartsOf(a: string, b: string)
    ensures |a + b| == |a| + |b| && (a + b)[..|a|] == a && (a + b)[|a|..] == b
    ensures (forall j :: 0 <= j < |a| ==> (a + b)[j] == a[j]) && forall j :: 0 <= j < |b| ==> (a + b)[|a| + j] == b[j]
  {
  }

  lemma {:induction false} BracedBehindPercent(name: string, fmt: string, after: string)
    ensures (Spell(Braced(name, fmt)) + after)[1..] == name + ("{" + (fmt + ("}" + after)))
  {
    var tail := "{" + (fmt + ("}" + after));
    Assoc("%" + name + "{" + fmt, "}", after);
    Assoc("%" + name + "{", fmt, "}" + after);
    Assoc("%" + name, "{", fmt + ("}" + after));
    Assoc("%", name, tail);
    assert Spell(Braced(name, fmt)) + after == "%" + (name + tail);
  }

  /** Reading a directive back from its characters. */
  lemma {:induction false} ReadIs(x: Piece, after: string)
    requires Munched(x, after) && !x.Text?
    ensures Read((Spell(x) + after)[1..]) == Some(x)
  {
    match x
    case Plain(name) =>
      var q := name + after;
      assert (Spell(x) + after)[1..] == q;
      NameEndIs(q, 0, |name|);
      assert q[..|name|] == name;
    case Braced(name, fmt) =>
      ReadBracedIs(name, fmt, after);
      BracedBehindPercent(name, fmt, after);
  }

  /** A directive that was read from q, and its length in q. */
  ghost predicate SpelledBy(q: string, x: Piece, k: nat) {
    k <= |q| && !x.Text? && |Spell(x)| == k + 1 && Spell(x) == "%" + q[..k] && Munched(x, q[k..])
  }

  lemma {:induction false} BracedSpells(q: string, n: nat, c: nat)
    requires n < c < |q| && NameBetween(q, 0, n) && q[n] == '{' && OpenBetween(q, n + 1, c) && q[c] == '}'
    ensures SpelledBy(q, Braced(q[..n], q[n + 1..c]), c + 1)
  {
    assert q[..c + 1] == q[..n] + "{" + q[n + 1..c] + "}";
  }

  lemma {:induction false} PlainSpells(q: string, n: nat)
    requires n <= |q| && NameBetween(q, 0, n) && (n < |q| ==> !InName(q[n]) && q[n] != '{') && (q != "" ==> q[0] != '%')
    ensures SpelledBy(q, Plain(q[..n]), n)
  {
  }

  lemma {:induction false} ReadIsOneOf(q: string)
    requires Read(q).Some?
    ensures var n := NameEnd(q, 0);
      if n < |q| && q[n] == '{'
      then var c := BraceEnd(q, n + 1); c < |q| && Read(q) == Some(Braced(q[..n], q[n + 1..c]))
      else Read(q) == Some(Plain(q[..n]))
  {
  }

  /** It is spelled by the characters it was read from, and munched. */
  lemma {:induction false} ReadSpells(q: string) returns (k: nat)
    requires Read(q).Some? && (q != "" ==> q[0] != '%')
    ensures SpelledBy(q, Read(q).value, k)
  {
    var n := NameEnd(q, 0);
    ReadIsOneOf(q);
    if n < |q| && q[n] == '{' {
      k := BraceEnd(q, n + 1) + 1;
      BracedSpells(q, n, k - 1);
    } else {
      PlainSpells(q, n);
      k := n;
    }
  }

  /** Text is gathered up to the next directive. */
  lemma {:induction false} GatherText(t: string, after: string, text: string)
    requires PercentsDoubled(t, after)
    ensures Parse(t + after, text) == Parse(after, text + t)
    decreases |t|
  {
    if t == "" {
      assert t + after == after && text + t == text;
    } else {
      var p := t + after;
      assert p[1..] == t[1..] + after;
      assert PercentsDoubled(t[1..], after) by {
        forall i | 0 <= i < |t[1..]| && t[1..][i] == '%'
          ensures i + 1 < |t[1..] + after| && (t[1..] + after)[i + 1] == '%'
        {
          assert t[i + 1] == '%' && p[i + 2] == '%';
        }
      }
      GatherText(t[1..], after, text + [t[0]]);
      assert text + [t[0]] + t[1..] == text + t;
      if t[0] == '%' { assert p[1] == '%'; }
    }
  }

  /** A directive starts with a `%` that is not followed by another one. */
  lemma {:induction false} StartsDirective(x: Piece, after: string)
    requires Munched(x, after) && !x.Text?
    ensures var p := Spell(x) + after;
      p[0] == '%' && (|p| > 1 ==> p[1] != '%') && Read(p[1..]) == Some(x) && p[|Spell(x)|..] == after
  {
    ReadIs(x, after);
    var p := Spell(x) + after;
    if x.name != "" { assert p[1] == x.name[0] && InName(x.name[0]); }
  }

  lemma {:induction false} ParseAtDirective(x: Piece, after: string, text: string)
    requires Munched(x, after) && !x.Text?
    ensures Parse(Spell(x) + after, text) == Flush(text) + ([x] + Parse(after, ""))
  {
    StartsDirective(x, after);
  }

  lemma {:induction false} FlushedFirst(ps: seq<Piece>, text: string)
    requires MaximalMunch(ps) && (ps != [] ==> !ps[0].Text?)
    ensures Parse(Spelling(ps), text) == Flush(text) + Parse(Spelling(ps), "")
  {
    if ps != [] {
      ParseAtDirective(ps[0], Spelling(ps[1..]), text);
      ParseAtDirective(ps[0], Spelling(ps[1..]), "");
      var tail := [ps[0]] + Parse(Spelling(ps[1..]), "");
      assert Flush("") + tail == tail;
    }
  }

  lemma {:induction false} TextComesBack(t: string, ps: seq<Piece>)
    requires t != "" && MaximalMunch(ps) && (ps != [] ==> !ps[0].Text?) && PercentsDoubled(t, Spelling(ps))
    ensures Parse(t + Spelling(ps), "") == [Text(t)] + Parse(Spelling(ps), "")
  {
    GatherText(t, Spelling(ps), "");
    assert "" + t == t;
    FlushedFirst(ps, t);
  }

  lemma {:induction false} DirectiveComesBack(x: Piece, after: string)
    requires Munched(x, after) && !x.Text?
    ensures Parse(Spell(x) + after, "") == [x] + Parse(after, "")
  {
    ParseAtDirective(x, after, "");
  }

  /** Any maximal munch that spells the pattern is what the parser finds: there is at most one. */
  lemma {:induction false} MunchIsUnique(ps: seq<Piece>)
    requires MaximalMunch(ps)
    ensures Parse(Spelling(ps), "") == ps
    decreases |ps|
  {
    if ps != [] {
      MunchIsUnique(ps[1..]);
      if ps[0].Text? {
        TextComesBack(ps[0].text, ps[1..]);
      } else {
        DirectiveComesBack(ps[0], Spelling(ps[1..]));
      }
    }
  }

  /** Putting text in front of a maximal munch that starts with a directive. */
  lemma {:induction false} TextInFront(text: string, ps: seq<Piece>)
    requires MaximalMunch(ps) && (ps != [] ==> !ps[0].Text?) && PercentsDoubled(text, Spelling(ps))
    ensures MaximalMunch(Flush(text) + ps) && Spelling(Flush(text) + ps) == text + Spelling(ps)
  {
    if text != "" {
      assert (Flush(text) + ps)[1..] == ps;
    } else {
      assert Flush(text) + ps == ps && text + Spelling(ps) == Spelling(ps);
    }
  }

  /** When every brace is closed the pieces are a maximal munch, and their characters are
      those of the pattern: each is consumed exactly once. */
  lemma {:induction false} ParseMunches(p: string, text: string)
    requires Broken !in Parse(p, text) && PercentsDoubled(text, p)
    ensures MaximalMunch(Parse(p, text)) && Spelling(Parse(p, text)) == text + p
    decreases |p|
  {
    if p == "" {
      TextInFront(text, []);
      assert Flush(text) + [] == Flush(text);
    } else if p[0] != '%' || (|p| > 1 && p[1] == '%') {
      assert text + [p[0]] + p[1..] == text + p;
      ParseMunches(p[1..], text + [p[0]]);
    } else {
      DirectiveMunches(p, text);
    }
  }

  lemma {:induction false} DirectiveMunches(p: string, text: string)
    requires p != "" && p[0] == '%' && !(|p| > 1 && p[1] == '%')
    requires Broken !in Parse(p, text) && PercentsDoubled(text, p)
    ensures MaximalMunch(Parse(p, text)) && Spelling(Parse(p, text)) == text + p
    decreases |p|, 0
  {
    var x := DirectiveInFront(p);
    var after := p[|Spell(x)|..];
    var rest := Parse(after, "");
    var ps := [x] + rest;
    assert Parse(p, text) == Flush(text) + ps;
    assert Broken !in rest by { assert ps[1..] == rest; }
    ParseMunches(after, "");
    assert "" + after == after && ps[1..] == rest;
    TextInFront(text, ps);
  }

  /** What is read at the front of p. */
  lemma {:induction false} DirectiveInFront(p: string) returns (x: Piece)
    requires p != "" && p[0] == '%' && !(|p| > 1 && p[1] == '%') && Broken !in Parse(p, "")
    ensures Read(p[1..]) == Some(x) && !x.Text? && 1 <= |Spell(x)| <= |p|
    ensures Spell(x) + p[|Spell(x)|..] == p && Munched(x, p[|Spell(x)|..])
  {
    assert Read(p[1..]).Some?;
    x := Read(p[1..]).value;
    var k := ReadSpells(p[1..]);
    FrontOf(p, k + 1);
  }

  lemma {:induction false} FrontOf(p: string, k: nat)
    requires 1 <= k <= |p|
    ensures [p[0]] + p[1..][..k - 1] == p[..k] && p[..k] + p[k..] == p && p[1..][k - 1..] == p[k..]
  {
  }

  /** The parser reports an unclosed brace exactly when no maximal munch spells the pattern. */
  lemma {:induction false} ErrorIffNoMunch(p: string)
    ensures Broken !in Parse(p, "") <==> exists ps :: MaximalMunch(ps) && Spelling(ps) == p
  {
    if Broken !in Parse(p, "") {
      ParseMunches(p, "");
      assert "" + p == p;
    }
    if ps :| MaximalMunch(ps) && Spelling(ps) == p {
      MunchIsUnique(ps);
      NoneBroken(ps);
    }
  }

  lemma {:induction false} NoneBroken(ps: seq<Piece>)
    requires MaximalMunch(ps)
    ensures Broken !in ps
  {
    if ps != [] { NoneBroken(ps[1..]); }
  }

  // ----- printing, and reading back -----

  /** Every `%` written twice. */
  function Doubled(t: string): string {
    if t == "" then "" else (if t[0] == '%' then "%%" else [t[0]]) + Doubled(t[1..])
  }

  function Print(ts: seq<Token>): string {
    if ts == [] then ""
    else
      (match ts[0]
       case Literal(t) => Doubled(t)
       case Directive(name, fmt) => "%" + name + "{" + fmt + "}")
      + Print(ts[1..])
  }

  /** Whole runs of text, and directives with a name of letters and a format without `}`. */
  predicate Canonical(ts: seq<Token>) {
    && (forall i :: 0 <= i < |ts| ==>
         match ts[i]
         case Literal(t) => t != ""
         case Directive(name, fmt) => (forall j :: 0 <= j < |name| ==> IsAlpha(name[j])) && OpenBetween(fmt, 0, |fmt|))
    && (forall i :: 0 <= i < |ts| - 1 ==> ts[i].Directive? || ts[i + 1].Directive?)
  }

  predicate NoPercent(ts: seq<Token>) {
    forall i :: 0 <= i < |ts| && ts[i].Literal? ==> '%' !in ts[i].text
  }

  function WithBraces(ts: seq<Token>): (ps: seq<Piece>)
    ensures |ps| == |ts|
    ensures forall i :: 0 <= i < |ts| ==> ToToken(ps[i]) == ts[i]
    ensures forall i :: 0 <= i < |ts| ==> (ps[i].Text? <==> ts[i].Literal?)
  {
    if ts == [] then []
    else [match ts[0] case Literal(t) => Text(t) case Directive(name, fmt) => Braced(name, fmt)] + WithBraces(ts[1..])
  }

  lemma {:induction false} DoubledLength(t: string)
    ensures |Doubled(t)| >= |t|
    ensures '%' !in t ==> Doubled(t) == t
    ensures '%' in t ==> |Doubled(t)| > |t|
  {
    if t != "" {
      DoubledLength(t[1..]);
      assert t == [t[0]] + t[1..];
    }
  }

  lemma {:induction false} PrintIsSpelling(ts: seq<Token>)
    requires Canonical(ts) && NoPercent(ts)
    ensures Spelling(WithBraces(ts)) == Print(ts) && MaximalMunch(WithBraces(ts))
  {
    if ts != [] {
      var ps := WithBraces(ts);
      assert ps[1..] == WithBraces(ts[1..]);
      assert Canonical(ts[1..]) && NoPercent(ts[1..]) by {
        assert forall i {:trigger ts[1..][i]} :: 0 <= i < |ts| - 1 ==> ts[1..][i] == ts[i + 1];
      }
      PrintIsSpelling(ts[1..]);
      if ts[0].Literal? {
        DoubledLength(ts[0].text);
        assert Munched(ps[0], Spelling(ps[1..])) by {
          assert forall i :: 0 <= i < |ts[0].text| ==> ts[0].text[i] in ts[0].text;
        }
        assert |ts| > 1 ==> ts[1].Directive?;
      }
    }
  }

  lemma {:induction false} PrintIsLonger(ps: seq<Piece>)
    requires Broken !in ps
    ensures |Print(Tokens(ps))| >= |Spelling(ps)|
    ensures !NoPercent(Tokens(ps)) ==> |Print(Tokens(ps))| > |Spelling(ps)|
  {
    if ps != [] {
      var ts := Tokens(ps);
      assert ts[1..] == Tokens(ps[1..]);
      PrintIsLonger(ps[1..]);
      if ps[0].Text? { DoubledLength(ps[0].text); }
      if !NoPercent(ts) && (ts[0].Directive? || '%' !in ts[0].text) {
        var i :| 0 <= i < |ts| && ts[i].Literal? && '%' in ts[i].text;
        assert ts[1..][i - 1] == ts[i];
      }
      assert ps[0] in ps;
    }
  }

  /** Round trip: a canonical list, printed and parsed, comes back without an error if
      and only if no literal of it has a `%`: doubling does not protect one. */
  lemma {:induction false} RoundTripIffNoPercent(ts: seq<Token>)
    requires Canonical(ts)
    ensures var ps := Parse(Print(ts), "");
      Broken !in ps && Tokens(ps) == ts <==> NoPercent(ts)
  {
    var ps := Parse(Print(ts), "");
    if NoPercent(ts) {
      PrintIsSpelling(ts);
      MunchIsUnique(WithBraces(ts));
      NoneBroken(WithBraces(ts));
      assert Tokens(WithBraces(ts)) == ts;
    }
    if Broken !in ps && Tokens(ps) == ts {
      ParseMunches(Print(ts), "");
      assert "" + Print(ts) == Print(ts);
      PrintIsLonger(ps);
    }
  }

  /** Two percent signs and a letter are not a literal percent sign and a letter. */
  lemma {:induction false} DoubledPercentExample()
    ensures Print([Literal("%d")]) == "%%d" && Tokens(Parse("%%d", "")) == [Literal("%"), Directive("d", "")]
  {
    assert Doubled("%d") == "%%d" by {
      assert "%d"[1..] == "d" && "d"[1..] == "";
      assert Doubled("d") == "d";
    }
    var ps := [Text("%"), Plain("d")];
    assert ps[1..] == [Plain("d")] && [Plain("d")][1..] == [];
    assert Spelling([Plain("d")]) == "%d" && Spelling(ps) == "%%d";
    assert MaximalMunch([Plain("d")]) && MaximalMunch(ps);
    MunchIsUnique(ps);
  }

  // ----- the scanner -----

  /** The three ways the loop over the directive behind i ends. */
  lemma {:induction false} StopsAtNameEnd(p: string, i: nat, n: nat)
    requires i < n <= |p| && NameBetween(p, i + 1, n) && (n == |p| || (!InName(p[n]) && p[n] != '{'))
    ensures Read(p[i + 1..]) == Some(Plain(p[i + 1..n]))
  {
    var q, m := p[i + 1..], n - i - 1;
    NameEndIs(q, 0, m);
    assert q[..m] == p[i + 1..n];
  }

  lemma {:induction false} StopsAtBrace(p: string, i: nat, begin: nat, n: nat)
    requires i < begin < n < |p| && NameBetween(p, i + 1, begin) && p[begin] == '{' && OpenBetween(p, begin + 1, n) && p[n] == '}'
    ensures Read(p[i + 1..]) == Some(Braced(p[i + 1..begin], p[begin + 1..n]))
  {
    var q, m, c := p[i + 1..], begin - i - 1, n - i - 1;
    ReadBetween(q, m, c);
    assert q[..m] == p[i + 1..begin] && q[m + 1..c] == p[begin + 1..n];
  }

  lemma {:induction false} StopsOpen(p: string, i: nat, begin: nat)
    requires i < begin < |p| && NameBetween(p, i + 1, begin) && p[begin] == '{' && OpenBetween(p, begin + 1, |p|)
    ensures Read(p[i + 1..]) == None
  {
    var q, m := p[i + 1..], begin - i - 1;
    NameEndIs(q, 0, m);
    BraceEndIs(q, m + 1, |q|);
  }

  /** The directive read behind i has this name and format, and ends at n. */
  predicate ReadTo(p: string, i: nat, str: string, fmt: string, n: nat)
    requires i < |p|
  {
    var r := Read(p[i + 1..]);
    r.Some? && i < n <= |p| && n == i + |Spell(r.value)| && ToToken(r.value) == Directive(str, fmt)
  }

  /** The loop over a directive, from behind its `%` at i. `status` is 1 inside of the
      braces; when it ends as 0 the directive ends at n. */
  method ScanDirective(p: string, i: nat) returns (str: string, fmt: string, n: nat, status: int)
    requires i < |p| && p[i] == '%'
    ensures status == 0 || status == 1
    ensures status == 0 ==> ReadTo(p, i, str, fmt, n)
    ensures status == 1 ==> Read(p[i + 1..]).None?
  {
    n := i + 1;
    status := 0;
    var begin := 0;
    str, fmt := "", "";
    while n < |p|
      invariant i + 1 <= n <= |p| && fmt == "" && (status == 0 || status == 1)
      invariant status == 0 ==> NameBetween(p, i + 1, n) && str == if n == |p| then p[i + 1..n] else ""
      invariant status == 1 ==> i < begin < n && NameBetween(p, i + 1, begin) && p[begin] == '{' && OpenBetween(p, begin + 1, n)
      invariant status == 1 && n < |p| ==> str == p[i + 1..begin]
      decreases |p| - n
    {
      if status == 0 && !IsAlpha(p[n]) && p[n] != '{' && p[n] != '}' {
        str := p[i + 1..n];
        StopsAtNameEnd(p, i, n);
        return;
      }
      if status == 0 && p[n] == '{' {
        str := p[i + 1..n];
        status := 1;
        begin := n;
        n := n + 1;
        continue;
      } else if status == 1 && p[n] == '}' {
        fmt := p[begin + 1..n];
        StopsAtBrace(p, i, begin, n);
        status := 0;
        n := n + 1;
        return;
      }
      n := n + 1;
      if n == |p| && str == "" {
        str := p[i + 1..];
      }
    }
    if status == 0 {
      StopsAtNameEnd(p, i, n);
    } else {
      StopsOpen(p, i, begin);
    }
  }

  /** Up to index i the pattern gave these tokens, and text still to be flushed. */
  ghost predicate Scanned(p: string, i: nat, nstr: string, vec: seq<Token>, broken: bool, done: seq<Piece>) {
    && i <= |p| && Parse(p, "") == done + Parse(p[i..], nstr)
    && vec == Tokens(done) && broken == (Broken in done)
  }

  lemma {:induction false} TextStep(p: string, i: nat, nstr: string, vec: seq<Token>, broken: bool, done: seq<Piece>)
    requires i < |p| && Scanned(p, i, nstr, vec, broken, done)
    requires p[i] != '%' || (i + 1 < |p| && p[i + 1] == '%')
    ensures Scanned(p, i + 1, nstr + [p[i]], vec, broken, done)
  {
    assert p[i..][1..] == p[i + 1..];
  }

  function AfterText(vec: seq<Token>, text: string): seq<Token> {
    if text == "" then vec else vec + [Literal(text)]
  }

  lemma {:induction false} FlushStep(p: string, vec: seq<Token>, broken: bool, done: seq<Piece>, text: string, rest: seq<Piece>)
    requires Parse(p, "") == done + (Flush(text) + rest) && vec == Tokens(done) && broken == (Broken in done)
    ensures var done' := done + Flush(text);
      && Parse(p, "") == done' + rest && broken == (Broken in done')
      && AfterText(vec, text) == Tokens(done')
  {
    TokensAppend(done, Flush(text));
    assert done + (Flush(text) + rest) == done + Flush(text) + rest;
  }

  lemma {:induction false} PieceStep(p: string, vec: seq<Token>, broken: bool, done: seq<Piece>, x: Piece, i: nat, nstr: string)
    requires i <= |p| && Parse(p, "") == done + ([x] + Parse(p[i..], nstr)) && vec == Tokens(done) && broken == (Broken in done)
    ensures Scanned(p, i, nstr, vec + [ToToken(x)], broken || x == Broken, done + [x])
  {
    TokensAppend(done, [x]);
    assert done + ([x] + Parse(p[i..], nstr)) == done + [x] + Parse(p[i..], nstr);
  }

  /** A directive that was read: the text before it is flushed. */
  lemma {:induction false} ReadStep(p: string, i: nat, nstr: string, vec: seq<Token>, broken: bool, done: seq<Piece>, x: Piece)
    requires i < |p| && Scanned(p, i, nstr, vec, broken, done)
    requires p[i] == '%' && !(i + 1 < |p| && p[i + 1] == '%') && Read(p[i + 1..]) == Some(x)
    ensures Scanned(p, i + |Spell(x)|, "", AfterText(vec, nstr) + [ToToken(x)], broken, done + Flush(nstr) + [x])
  {
    ParseRead(p, i, nstr, x);
    FlushAndPieceStep(p, vec, broken, done, nstr, x, i + |Spell(x)|);
  }

  lemma {:induction false} FlushAndPieceStep(p: string, vec: seq<Token>, broken: bool, done: seq<Piece>, text: string, x: Piece, j: nat)
    requires j <= |p| && x != Broken && Parse(p, "") == done + (Flush(text) + ([x] + Parse(p[j..], "")))
    requires vec == Tokens(done) && broken == (Broken in done)
    ensures Scanned(p, j, "", AfterText(vec, text) + [ToToken(x)], broken, done + Flush(text) + [x])
  {
    FlushStep(p, vec, broken, done, text, [x] + Parse(p[j..], ""));
    PieceStep(p, AfterText(vec, text), broken, done + Flush(text), x, j, "");
  }

  /** The same, for what the loop over the directive returned. */
  lemma {:induction false} ReadToStep(p: string, i: nat, nstr: string, vec: seq<Token>, broken: bool, done: seq<Piece>,
                                      str: string, fmt: string, n: nat) returns (done': seq<Piece>)
    requires i < |p| && Scanned(p, i, nstr, vec, broken, done)
    requires p[i] == '%' && !(i + 1 < |p| && p[i + 1] == '%') && ReadTo(p, i, str, fmt, n)
    ensures i < n && Scanned(p, n, "", AfterText(vec, nstr) + [Directive(str, fmt)], broken, done')
  {
    var x := Read(p[i + 1..]).value;
    ReadStep(p, i, nstr, vec, broken, done, x);
    done' := done + Flush(nstr) + [x];
  }

  /** A brace that stays open: the text before it is not flushed. */
  lemma {:induction false} BrokenStep(p: string, i: nat, nstr: string, vec: seq<Token>, broken: bool, done: seq<Piece>)
    requires i < |p| && Scanned(p, i, nstr, vec, broken, done)
    requires p[i] == '%' && !(i + 1 < |p| && p[i + 1] == '%') && Read(p[i + 1..]).None?
    ensures Scanned(p, i + 1, nstr, vec + [Literal(PATTERN_ERROR)], true, done + [Broken])
  {
    ParseBroken(p, i, nstr);
    PieceStep(p, vec, broken, done, Broken, i + 1, nstr);
  }

  /** One directive of the pattern, from the index of its `%`. */
  lemma {:induction false} ParseRead(p: string, i: nat, text: string, x: Piece)
    requires i < |p| && p[i] == '%' && !(i + 1 < |p| && p[i + 1] == '%') && Read(p[i + 1..]) == Some(x)
    ensures x != Broken && Parse(p[i..], text) == Flush(text) + ([x] + Parse(p[i + |Spell(x)|..], ""))
  {
    var q := p[i..];
    assert q[1..] == p[i + 1..];
    assert q[|Spell(x)|..] == p[i + |Spell(x)|..];
  }

  lemma {:induction false} ParseBroken(p: string, i: nat, text: string)
    requires i < |p| && p[i] == '%' && !(i + 1 < |p| && p[i + 1] == '%') && Read(p[i + 1..]).None?
    ensures Parse(p[i..], text) == [Broken] + Parse(p[i + 1..], text)
  {
    var q := p[i..];
    assert q[1..] == p[i + 1..];
  }

  lemma {:induction false} LastStep(p: string, nstr: string, vec: seq<Token>, broken: bool, done: seq<Piece>)
    requires Scanned(p, |p|, nstr, vec, broken, done)
    ensures AfterText(vec, nstr) == Tokens(Parse(p, ""))
    ensures broken == (Broken in Parse(p, ""))
  {
    assert Flush(nstr) == Flush(nstr) + [];
    FlushStep(p, vec, broken, done, nstr, []);
    assert done + Flush(nstr) + [] == done + Flush(nstr);
  }

  /** The rest of the loop body, from a `%` that is not followed by another one. */
  method TakeDirective(p: string, i: nat, nstr: string, vec: seq<Token>, broken: bool, ghost done: seq<Piece>)
    returns (i': nat, nstr': string, vec': seq<Token>, broken': bool, ghost done': seq<Piece>)
    requires i < |p| && p[i] == '%' && !(i + 1 < |p| && p[i + 1] == '%') && Scanned(p, i, nstr, vec, broken, done)
    ensures i <= i' && Scanned(p, i' + 1, nstr', vec', broken', done')
  {
    var str, fmt, n, status := ScanDirective(p, i);
    if status == 1 {
      BrokenStep(p, i, nstr, vec, broken, done);
      i', nstr', vec', broken', done' := i, nstr, vec + [Literal(PATTERN_ERROR)], true, done + [Broken];
    } else {
      done' := ReadToStep(p, i, nstr, vec, broken, done, str, fmt, n);
      vec' := if nstr != "" then vec + [Literal(nstr)] else vec;
      i', nstr', vec', broken' := n - 1, "", vec' + [Directive(str, fmt)], broken;
      assert vec' == AfterText(vec, nstr) + [Directive(str, fmt)] && i' + 1 == n;
    }
  }

  /** The scanner: the index jumps behind each directive, and only ever forward. */
  method Scan(p: string) returns (vec: seq<Token>, broken: bool)
    ensures vec == Tokens(Parse(p, "")) && broken == (Broken in Parse(p, ""))
  {
    vec, broken := [], false;
    var nstr := "";
    ghost var done: seq<Piece> := [];
    var i := 0;
    ScanStarts(p);
    while i < |p|
      invariant Scanned(p, i, nstr, vec, broken, done)
      decreases |p| - i
    {
      if p[i] != '%' {
        TextStep(p, i, nstr, vec, broken, done);
        nstr := nstr + [p[i]];
        i := i + 1;
        continue;
      }
      if i + 1 < |p| && p[i + 1] == '%' {
        TextStep(p, i, nstr, vec, broken, done);
        nstr := nstr + [p[i + 1]];
        i := i + 1;
        continue;
      }
      i, nstr, vec, broken, done := TakeDirective(p, i, nstr, vec, broken, done);
      i := i + 1;
    }
    LastStep(p, nstr, vec, broken, done);
    if nstr != "" {
      vec := vec + [Literal(nstr)];
    }
  }

  lemma {:induction false} ScanStarts(p: string)
    ensures Scanned(p, 0, "", [], false, [])
  {
    assert p[0..] == p && [] + Parse(p, "") == Parse(p, "");
  }

  lemma {:induction false} TokensAppend(a: seq<Piece>, b: seq<Piece>)
    ensures Tokens(a + b) == Tokens(a) + Tokens(b)
  {
  }

  // ----- format items -----

  datatype Field =
    | Message | Level | Elapsed | LoggerName | ThreadId | NewLine | DateTime | FileName | Line | Tab | FiberId | ThreadName

  /** What one token of the pattern turns into: a text, or a field and its format. */
  datatype Item = StringItem(text: string) | FieldItem(field: Field, fmt: string)

  /** The letter a field is asked for with. */
  function Letter(f: Field): string {
    match f
    case Message => "m"
    case Level => "p"
    case Elapsed => "r"
    case LoggerName => "c"
    case ThreadId => "t"
    case NewLine => "n"
    case DateTime => "d"
    case FileName => "f"
    case Line => "l"
    case Tab => "T"
    case FiberId => "F"
    case ThreadName => "N"
  }

  ghost predicate Known(t: Token) {
    t.Directive? ==> exists f: Field :: Letter(f) == t.name
  }

  ghost predicate AllKnown(ts: seq<Token>) {
    forall i :: 0 <= i < |ts| ==> Known(ts[i])
  }

  /** The item says what the token asks for: the text; the field of that letter, in that
      format; or, when it is the letter of no field, that there is none. */
  ghost predicate Means(item: Item, t: Token) {
    match t
    case Literal(text) => item == StringItem(text)
    case Directive(name, fmt) =>
      if Known(t) then item.FieldItem? && Letter(item.field) == name && item.fmt == fmt
      else item == StringItem("<<error_format %" + name + ">>")
  }

  ghost predicate Itemized(items: seq<Item>, ts: seq<Token>) {
    |items| == |ts| && forall i :: 0 <= i < |ts| ==> Means(items[i], ts[i])
  }

  lemma {:induction false} OneLetterEach(f: Field, g: Field)
    requires Letter(f) == Letter(g)
    ensures f == g
  {
  }

  /** The tokens decide the items. */
  lemma {:induction false} ItemsAreUnique(a: seq<Item>, b: seq<Item>, ts: seq<Token>)
    requires Itemized(a, ts) && Itemized(b, ts)
    ensures a == b
  {
    forall i | 0 <= i < |ts| ensures a[i] == b[i] {
      assert Means(a[i], ts[i]) && Means(b[i], ts[i]);
      if a[i].FieldItem? && b[i].FieldItem? { OneLetterEach(a[i].field, b[i].field); }
    }
  }

  lemma {:induction false} OneMoreItem(items: seq<Item>, ts: seq<Token>, i: nat, item: Item)
    requires i < |ts| && Itemized(items, ts[..i]) && Means(item, ts[i])
    ensures Itemized(items + [item], ts[..i + 1])
    ensures AllKnown(ts[..i + 1]) <==> AllKnown(ts[..i]) && Known(ts[i])
  {
    assert ts[..i + 1] == ts[..i] + [ts[i]];
  }

  /** A brace is left open, or a directive is the letter of no field. */
  ghost predicate Erroneous(p: string) {
    Broken in Parse(p, "") || !AllKnown(Tokens(Parse(p, "")))
  }

  class LogFormatter {
    const pattern: string
    var items: seq<Item>
    var error: bool

    constructor (pattern: string)
      ensures this.pattern == pattern
      ensures Itemized(items, Tokens(Parse(pattern, ""))) && error == Erroneous(pattern)
    {
      this.pattern := pattern;
      items, error := [], false;
      new;
      Init();
    }

    method Init()
      requires items == [] && !error
      modifies this
      ensures Itemized(items, Tokens(Parse(pattern, ""))) && error == Erroneous(pattern)
    {
      var vec, broken := Scan(pattern);
      error := broken;
      for i := 0 to |vec|
        invariant Itemized(items, vec[..i]) && error == (broken || !AllKnown(vec[..i]))
      {
        var item, known := MakeItem(vec[i]);
        OneMoreItem(items, vec, i, item);
        items := items + [item];
        if !known { error := true; }
      }
      assert vec[..|vec|] == vec;
    }

    /** A directive the table does not know becomes a text that says so. */
    method MakeItem(t: Token) returns (item: Item, known: bool)
      ensures Means(item, t) && known == Known(t)
    {
      var table := map[
        "m" := Message, "p" := Level, "r" := Elapsed, "c" := LoggerName, "t" := ThreadId, "n" := NewLine,
        "d" := DateTime, "f" := FileName, "l" := Line, "T" := Tab, "F" := FiberId, "N" := ThreadName];
      known := true;
      match t
      case Literal(text) => item := StringItem(text);
      case Directive(name, fmt) =>
        if name in table {
          item := FieldItem(table[name], fmt);
          assert Letter(table[name]) == name;
        } else {
          item := StringItem("<<error_format %" + name + ">>");
          known := false;
        }
    }
  }

  class Logger {
    var formatter: LogFormatter

    constructor (formatter: LogFormatter)
      ensures this.formatter == formatter
    {
      this.formatter := formatter;
    }

    /** A pattern with an error is refused, and the formatter stays. */
    method SetFormatter(val: string)
      modifies this
      ensures Erroneous(val) ==> formatter == old(formatter)
      ensures !Erroneous(val) ==>
        fresh(formatter) && formatter.pattern == val && !formatter.error && Itemized(formatter.items, Tokens(Parse(val, "")))
    {
      var f := new LogFormatter(val);
      if f.error { return; }
      formatter := f;
    }
  }

  /** A pattern is refused unless it can be cut into text and directives the table knows. */
  lemma {:induction false} RefusedIffNoKnownMunch(p: string)
    ensures Erroneous(p) <==> !exists ps :: MaximalMunch(ps) && Spelling(ps) == p && AllKnown(Tokens(ps))
  {
    if !Erroneous(p) {
      ParseMunches(p, "");
      assert "" + p == p;
    }
    if ps :| MaximalMunch(ps) && Spelling(ps) == p && AllKnown(Tokens(ps)) {
      MunchIsUnique(ps);
      NoneBroken(ps);
    }
  }

  lemma {:induction false} ItemFor(t: Token) returns (item: Item)
    ensures Means(item, t)
  {
    match t
    case Literal(text) => item := StringItem(text);
    case Directive(name, fmt) =>
      if f: Field :| Letter(f) == name { item := FieldItem(f, fmt); } else { item := StringItem("<<error_format %" + name + ">>"); }
  }

  lemma {:induction false} ItemsFor(ts: seq<Token>) returns (items: seq<Item>)
    ensures Itemized(items, ts)
  {
    items := [];
    if ts != [] {
      var first := ItemFor(ts[0]);
      var rest := ItemsFor(ts[1..]);
      items := [first] + rest;
    }
  }

  /** A known directive can be told from its item. */
  lemma {:induction false} TokenFromItem(item: Item, t: Token, u: Token)
    requires Means(item, t) && Means(item, u) && Known(t) && Known(u)
    ensures t == u
  {
  }

  /** The items of a printed list: each literal and each known directive is there again,
      and the pattern is accepted, if and only if no literal has a `%`. */
  lemma {:induction false} ItemsComeBackIffNoPercent(ts: seq<Token>)
    requires Canonical(ts) && AllKnown(ts)
    ensures !Erroneous(Print(ts)) && (forall items :: Itemized(items, Tokens(Parse(Print(ts), ""))) ==> Itemized(items, ts))
      <==> NoPercent(ts)
  {
    RoundTripIffNoPercent(ts);
    var us := Tokens(Parse(Print(ts), ""));
    if !Erroneous(Print(ts)) && forall items :: Itemized(items, us) ==> Itemized(items, ts) {
      var items := ItemsFor(us);
      forall i | 0 <= i < |us| ensures us[i] == ts[i] {
        assert Means(items[i], us[i]) && Means(items[i], ts[i]) && Known(us[i]) && Known(ts[i]);
        TokenFromItem(items[i], us[i], ts[i]);
      }
      assert us == ts;
    }
  }

  // ----- the table -----

  /** A field and the format it is asked for in. */
  datatype Ask = Ask(field: Field, fmt: string)

  /** The pattern that asks for these fields, one after the other. */
  function Asking(asks: seq<Ask>): string {
    if asks == [] then "" else "%" + Letter(asks[0].field) + "{" + asks[0].fmt + "}" + Asking(asks[1..])
  }

  function Asked(asks: seq<Ask>): (items: seq<Item>)
    ensures |items| == |asks| && forall i :: 0 <= i < |asks| ==> items[i] == FieldItem(asks[i].field, asks[i].fmt)
  {
    if asks == [] then [] else [FieldItem(asks[0].field, asks[0].fmt)] + Asked(asks[1..])
  }

  lemma {:induction false} LetterInName(f: Field)
    ensures AllInName(Letter(f))
  {
  }

  lemma {:induction false} OneAsk(letter: string, fmt: string, after: string)
    requires AllInName(letter) && '}' !in fmt
    ensures Parse("%" + letter + "{" + fmt + "}" + after, "") == [Braced(letter, fmt)] + Parse(after, "")
  {
    DirectiveComesBack(Braced(letter, fmt), after);
  }

  lemma {:induction false} AskingParses(asks: seq<Ask>) returns (ps: seq<Piece>)
    requires forall i :: 0 <= i < |asks| ==> '}' !in asks[i].fmt
    ensures Parse(Asking(asks), "") == ps && |ps| == |asks|
    ensures forall i :: 0 <= i < |asks| ==> ps[i] == Braced(Letter(asks[i].field), asks[i].fmt)
  {
    ps := [];
    if asks != [] {
      var letter := Letter(asks[0].field);
      var rest := AskingParses(asks[1..]);
      ps := [Braced(letter, asks[0].fmt)] + rest;
      LetterInName(asks[0].field);
      OneAsk(letter, asks[0].fmt, Asking(asks[1..]));
    }
  }

  /** The whole table: any list of fields, each asked for with its letter and a format,
      is accepted, and its items are these fields in these formats. */
  lemma {:induction false} FieldsComeAsAsked(asks: seq<Ask>)
    requires forall i :: 0 <= i < |asks| ==> '}' !in asks[i].fmt
    ensures !Erroneous(Asking(asks))
    ensures forall items :: Itemized(items, Tokens(Parse(Asking(asks), ""))) <==> items == Asked(asks)
  {
    var ps := AskingParses(asks);
    var ts := Tokens(ps);
    forall i | 0 <= i < |ts| ensures Known(ts[i]) && Means(Asked(asks)[i], ts[i]) {
      assert ts[i] == Directive(Letter(asks[i].field), asks[i].fmt);
    }
    forall items | Itemized(items, ts) ensures items == Asked(asks) {
      ItemsAreUnique(items, Asked(asks), ts);
    }
  }
}
