/** Building and parsing Windows command lines
    (Paket.Bootstrapper/WindowsProcessArguments.cs). */
module ProcessArguments {
  import opened Constraints

  const BS := '\\'
  const QUOTE := '\"'

  predicate IsBlank(c: char) { c == ' ' || c == '\t' }

  function Slashes(n: nat): (r: string)
    ensures |r| == n && forall i :: 0 <= i < n ==> r[i] == BS
  {
    seq(n, _ => BS)
  }

  // ------------------------------------------------------------------ the encoder, as a function

  /** How many backslashes a run of n becomes. */
  function Count(n: nat, beforeQuote: bool): nat {
    if n == 0 then 0
    else if beforeQuote || n % 2 == 0 then n * 2
    else (n - 1) * 2 + 1
  }

  predicate NeedsQuote(arg: string) { exists i :: 0 <= i < |arg| && IsBlank(arg[i]) }

  predicate Special(arg: string) { exists i :: 0 <= i < |arg| && (arg[i] == QUOTE || arg[i] == BS) }

  predicate Quoted(arg: string) { arg == "" || NeedsQuote(arg) }

  /** arg from position k on, n backslashes before it still to be written. */
  function Escaped(arg: string, k: nat, n: nat, q: bool): string
    requires k <= |arg|
    decreases |arg| - k
  {
    if k == |arg| then Slashes(Count(n, q))
    else if arg[k] == BS then Escaped(arg, k + 1, n + 1, q)
    else if arg[k] == QUOTE then Slashes(Count(n, true)) + [BS, QUOTE] + Escaped(arg, k + 1, 0, q)
    else Slashes(Count(n, false)) + [arg[k]] + Escaped(arg, k + 1, 0, q)
  }

  function Mark(q: bool): string { if q then [QUOTE] else [] }

  function Encode(arg: string): string {
    Mark(Quoted(arg)) + Escaped(arg, 0, 0, Quoted(arg)) + Mark(Quoted(arg))
  }

  function CommandLine(args: seq<string>): string {
    if args == [] then ""
    else if |args| == 1 then Encode(args[0])
    else CommandLine(args[..|args| - 1]) + " " + Encode(args[|args| - 1])
  }

  lemma {:induction false} PlainIsEscaped(arg: string, k: nat)
    requires k <= |arg| && !Special(arg)
    ensures Escaped(arg, k, 0, false) == arg[k..]
    decreases |arg| - k
  {
    if k < |arg| {
      PlainIsEscaped(arg, k + 1);
      assert arg[k..] == [arg[k]] + arg[k + 1..];
    }
  }

  // ------------------------------------------------------------------ the parser, as a function

  datatype Scan = Scan(inParameter: bool, quoted: bool, backslashes: nat, buffer: string, result: seq<string>)

  const START := Scan(false, false, 0, "", [])

  /** What backslashes pending before c turn into, and whether c is used up with them. */
  function Flushed(s: Scan, c: char): (Scan, bool) {
    if c == BS then (s.(backslashes := s.backslashes + 1), true)
    else if s.backslashes == 0 then (s, false)
    else if c != QUOTE then (s.(buffer := s.buffer + Slashes(s.backslashes), backslashes := 0), false)
    else if s.backslashes % 2 == 0 then (s.(buffer := s.buffer + Slashes(s.backslashes / 2), backslashes := 0), false)
    else (s.(buffer := s.buffer + Slashes((s.backslashes - 1) / 2) + [c], backslashes := 0), true)
  }

  /** A character that is not part of an escape; doubled says that another quote follows. */
  function Plain(s: Scan, c: char, doubled: bool): Scan {
    if s.quoted then
      if c != QUOTE || doubled then s.(buffer := s.buffer + [c]) else s.(quoted := false)
    else if IsBlank(c) then s.(inParameter := false, buffer := "", result := s.result + [s.buffer])
    else if c == QUOTE then s.(quoted := true)
    else s.(buffer := s.buffer + [c])
  }

  /** The state after the first characters of t, and how many they are: two for a doubled quote. */
  function Step(t: string, s: Scan): (r: (Scan, nat))
    requires t != []
    ensures 1 <= r.1 <= |t|
  {
    var in0 := s.(inParameter := s.inParameter || !IsBlank(t[0]));
    if !in0.inParameter then (in0, 1)
    else
      var (s1, used) := Flushed(in0, t[0]);
      if used then (s1, 1)
      else
        var doubled := s1.quoted && t[0] == QUOTE && |t| > 1 && t[1] == QUOTE;
        (Plain(s1, t[0], doubled), if doubled then 2 else 1)
  }

  function Finished(s: Scan): seq<string> {
    if s.inParameter then s.result + [s.buffer + Slashes(s.backslashes)] else s.result
  }

  function ParsedFrom(t: string, s: Scan): seq<string>
    decreases |t|
  {
    if t == [] then Finished(s) else var (s1, n) := Step(t, s); ParsedFrom(t[n..], s1)
  }

  function Parsed(args: Option<string>): seq<string> {
    match args case None => [] case Some(s) => ParsedFrom(s, START)
  }

  // ------------------------------------------------------------------ what comes back

  /** arg with each of its backslash runs expanded, unless the run ends at a quote, or at the end
      of an argument that is written in quotes. */
  function Expanded(arg: string, k: nat, n: nat, q: bool): string
    requires k <= |arg|
    decreases |arg| - k
  {
    if k == |arg| then Slashes(if q then n else Count(n, false))
    else if arg[k] == BS then Expanded(arg, k + 1, n + 1, q)
    else if arg[k] == QUOTE then Slashes(n) + [QUOTE] + Expanded(arg, k + 1, 0, q)
    else Slashes(Count(n, false)) + [arg[k]] + Expanded(arg, k + 1, 0, q)
  }

  function Returned(arg: string): string { Expanded(arg, 0, 0, Quoted(arg)) }

  function ReturnedAll(args: seq<string>): (r: seq<string>)
    ensures |r| == |args| && forall i :: 0 <= i < |args| ==> r[i] == Returned(args[i])
  {
    seq(|args|, i requires 0 <= i < |args| => Returned(args[i]))
  }

  // ------------------------------------------------------------------ scanning what was written

  lemma StepSlash(t: string, s: Scan)
    requires s.inParameter && t != [] && t[0] == BS
    ensures Step(t, s) == (s.(backslashes := s.backslashes + 1), 1)
  {
  }

  lemma OneStep(t: string, s: Scan)
    requires t != []
    ensures var (s1, n) := Step(t, s); ParsedFrom(t, s) == ParsedFrom(t[n..], s1)
  {
    hide Step;
  }

  lemma SlashesSplit(n: nat, rest: string)
    requires n > 0
    ensures Slashes(n) + rest == [BS] + (Slashes(n - 1) + rest)
  {
    assert Slashes(n) == [BS] + Slashes(n - 1);
  }

  /** A run of backslashes is only counted until its end is seen. */
  lemma {:induction false} ScanSlashes(n: nat, rest: string, s: Scan)
    requires s.inParameter
    ensures ParsedFrom(Slashes(n) + rest, s) == ParsedFrom(rest, s.(backslashes := s.backslashes + n))
  {
    hide ParsedFrom, Step, Slashes;
    if n == 0 {
      assert Slashes(0) + rest == rest;
    } else {
      var t, more := Slashes(n) + rest, Slashes(n - 1) + rest;
      SlashesSplit(n, rest);
      assert t[0] == BS && t[1..] == more;
      StepSlash(t, s);
      OneStep(t, s);
      ScanSlashes(n - 1, rest, s.(backslashes := s.backslashes + 1));
    }
  }

  /** One character that ends a run of n backslashes. */
  lemma ScanNext(n: nat, c: char, rest: string, s: Scan)
    requires s.inParameter && c != BS
    ensures var pending := s.(backslashes := s.backslashes + n);
            var (s1, k) := Step([c] + rest, pending);
            ParsedFrom(Slashes(n) + ([c] + rest), s) == ParsedFrom(([c] + rest)[k..], s1)
  {
    ScanSlashes(n, [c] + rest, s);
  }

  lemma ScanPlain(n: nat, c: char, rest: string, s: Scan)
    requires s.inParameter && s.backslashes == 0 && c != BS && c != QUOTE && (s.quoted || !IsBlank(c))
    ensures ParsedFrom(Slashes(n) + ([c] + rest), s) == ParsedFrom(rest, s.(buffer := s.buffer + Slashes(n) + [c]))
  {
    ScanNext(n, c, rest, s);
    hide ParsedFrom;
    assert ([c] + rest)[1..] == rest;
    assert n == 0 ==> s.buffer + Slashes(n) == s.buffer;
  }

  lemma StepEscapedQuote(n: nat, rest: string, s: Scan)
    requires s.inParameter && s.backslashes == 2 * n + 1
    ensures Step([QUOTE] + rest, s) == (s.(buffer := s.buffer + Slashes(n) + [QUOTE], backslashes := 0), 1)
  {
  }

  lemma ScanQuote(n: nat, rest: string, s: Scan)
    requires s.inParameter && s.backslashes == 0
    ensures ParsedFrom(Slashes(2 * n + 1) + ([QUOTE] + rest), s) == ParsedFrom(rest, s.(buffer := s.buffer + Slashes(n) + [QUOTE]))
  {
    hide ParsedFrom, Slashes, Step;
    ScanNext(2 * n + 1, QUOTE, rest, s);
    StepEscapedQuote(n, rest, s.(backslashes := 2 * n + 1));
    assert ([QUOTE] + rest)[1..] == rest;
  }

  /** The end of a parameter: what follows is nothing or a blank. */
  function Closed(rest: string, result: seq<string>, last: string): seq<string> {
    if rest == [] then result + [last] else ParsedFrom(rest[1..], START.(result := result + [last]))
  }

  lemma ScanBareEnd(n: nat, rest: string, s: Scan)
    requires s.inParameter && !s.quoted && s.backslashes == 0 && (rest == [] || IsBlank(rest[0]))
    ensures ParsedFrom(Slashes(n) + rest, s) == Closed(rest, s.result, s.buffer + Slashes(n))
  {
    ScanSlashes(n, rest, s);
    if n == 0 { assert s.buffer + Slashes(0) == s.buffer; }
  }

  /** A closing quote is not doubled: what follows is nothing or a blank. */
  lemma ScanClose(n: nat, rest: string, s: Scan)
    requires s.inParameter && s.quoted && s.backslashes == 0 && (rest == [] || IsBlank(rest[0]))
    ensures ParsedFrom(Slashes(2 * n) + ([QUOTE] + rest), s) == ParsedFrom(rest, s.(quoted := false, buffer := s.buffer + Slashes(n)))
  {
    ScanNext(2 * n, QUOTE, rest, s);
    hide ParsedFrom;
    assert ([QUOTE] + rest)[1..] == rest;
    assert n == 0 ==> s.buffer + Slashes(n) == s.buffer;
  }

  lemma ScanQuotedEnd(n: nat, rest: string, s: Scan)
    requires s.inParameter && s.quoted && s.backslashes == 0 && (rest == [] || IsBlank(rest[0]))
    ensures ParsedFrom(Slashes(2 * n) + ([QUOTE] + rest), s) == Closed(rest, s.result, s.buffer + Slashes(n))
  {
    ScanClose(n, rest, s);
    var s1 := s.(quoted := false, buffer := s.buffer + Slashes(n));
    ScanBareEnd(0, rest, s1);
    hide ParsedFrom;
    assert Slashes(0) + rest == rest && s1.buffer + Slashes(0) == s1.buffer;
  }

  /** From any position inside an argument the scan returns the expanded rest of it. */
  lemma {:induction false} ScanArgument(arg: string, k: nat, n: nat, q: bool, rest: string, s: Scan)
    requires k <= |arg| && s.inParameter && s.quoted == q && s.backslashes == 0
    requires !q ==> !NeedsQuote(arg)
    requires rest == [] || IsBlank(rest[0])
    ensures ParsedFrom(Escaped(arg, k, n, q) + Mark(q) + rest, s) == Closed(rest, s.result, s.buffer + Expanded(arg, k, n, q))
    decreases |arg| - k
  {
    hide ParsedFrom, Closed;
    if k == |arg| {
      if q {
        ScanQuotedEnd(n, rest, s);
        assert Slashes(2 * n) + [QUOTE] + rest == Slashes(2 * n) + ([QUOTE] + rest);
      } else {
        ScanBareEnd(Count(n, false), rest, s);
        assert Slashes(Count(n, false)) + [] == Slashes(Count(n, false));
      }
    } else if arg[k] == BS {
      ScanArgument(arg, k + 1, n + 1, q, rest, s);
    } else if arg[k] == QUOTE {
      var more := Escaped(arg, k + 1, 0, q);
      ScanQuote(n, more + Mark(q) + rest, s);
      ScanArgument(arg, k + 1, 0, q, rest, s.(buffer := s.buffer + Slashes(n) + [QUOTE]));
      JoinQuote(n, more, Mark(q), rest);
      assert s.buffer + (Slashes(n) + [QUOTE] + Expanded(arg, k + 1, 0, q)) == s.buffer + Slashes(n) + [QUOTE] + Expanded(arg, k + 1, 0, q);
    } else {
      var m, more := Count(n, false), Escaped(arg, k + 1, 0, q);
      ScanPlain(m, arg[k], more + Mark(q) + rest, s);
      ScanArgument(arg, k + 1, 0, q, rest, s.(buffer := s.buffer + Slashes(m) + [arg[k]]));
      JoinPlain(Slashes(m), arg[k], more, Mark(q), rest);
      assert s.buffer + (Slashes(m) + [arg[k]] + Expanded(arg, k + 1, 0, q)) == s.buffer + Slashes(m) + [arg[k]] + Expanded(arg, k + 1, 0, q);
    }
  }

  lemma JoinPlain(a: string, c: char, b: string, m: string, rest: string)
    ensures (a + [c] + b) + m + rest == a + ([c] + (b + m + rest))
  {
  }

  lemma JoinQuote(n: nat, b: string, m: string, rest: string)
    ensures (Slashes(Count(n, true)) + [BS, QUOTE] + b) + m + rest == Slashes(2 * n + 1) + ([QUOTE] + (b + m + rest))
  {
    assert Slashes(Count(n, true)) + [BS] == Slashes(2 * n + 1);
  }

  // ------------------------------------------------------------------ whole command lines

  lemma {:induction false} EscapedStarts(arg: string, k: nat, n: nat)
    requires k <= |arg| && (k < |arg| || n > 0) && !NeedsQuote(arg)
    ensures var e := Escaped(arg, k, n, false); e != [] && !IsBlank(e[0]) && (n == 0 && arg[k] != BS && arg[k] != QUOTE ==> e[0] == arg[k])
    decreases |arg| - k
  {
    if k < |arg| && arg[k] == BS {
      EscapedStarts(arg, k + 1, n + 1);
    }
  }

  /** Every argument, the empty one included, is written as something that starts a parameter. */
  lemma EncodedStarts(arg: string)
    ensures Encode(arg) != [] && !IsBlank(Encode(arg)[0])
  {
    if !Quoted(arg) {
      EscapedStarts(arg, 0, 0);
    }
  }

  /** A character that is no blank starts a parameter. */
  lemma ParameterStarts(t: string, result: seq<string>)
    requires t != [] && !IsBlank(t[0])
    ensures ParsedFrom(t, START.(result := result)) == ParsedFrom(t, Scan(true, false, 0, "", result))
  {
  }

  lemma OpensQuote(t: string, result: seq<string>)
    ensures ParsedFrom([QUOTE] + t, Scan(true, false, 0, "", result)) == ParsedFrom(t, Scan(true, true, 0, "", result))
  {
    assert ([QUOTE] + t)[1..] == t;
  }

  lemma ScanEncoded(arg: string, rest: string, result: seq<string>)
    requires rest == [] || IsBlank(rest[0])
    ensures ParsedFrom(Encode(arg) + rest, START.(result := result)) == Closed(rest, result, Returned(arg))
  {
    var q := Quoted(arg);
    assert q || !NeedsQuote(arg);
    hide ParsedFrom, Closed, Escaped, Quoted, Expanded, NeedsQuote;
    var body := Escaped(arg, 0, 0, q) + Mark(q) + rest;
    EncodedStarts(arg);
    assert Encode(arg) + rest == Mark(q) + body;
    hide Encode;
    ParameterStarts(Encode(arg) + rest, result);
    if q {
      OpensQuote(body, result);
    } else {
      assert Mark(q) + body == body;
    }
    ScanArgument(arg, 0, 0, q, rest, Scan(true, q, 0, "", result));
    assert "" + Returned(arg) == Returned(arg);
  }

  lemma {:induction false} LineSplits(args: seq<string>)
    requires |args| > 1
    ensures CommandLine(args) == Encode(args[0]) + ([' '] + CommandLine(args[1..]))
  {
    hide Encode;
    var init, last := args[..|args| - 1], Encode(args[|args| - 1]);
    if |args| > 2 {
      LineSplits(init);
      var tail := args[1..];
      assert init[1..] == tail[..|tail| - 1] && tail[|tail| - 1] == args[|args| - 1];
      assert CommandLine(tail) == CommandLine(init[1..]) + " " + last;
    }
    assert CommandLine(args) == CommandLine(init) + [' '] + last;
  }

  function RestOf(args: seq<string>): string
    requires args != []
  {
    if |args| == 1 then [] else [' '] + CommandLine(args[1..])
  }

  lemma LineIs(args: seq<string>)
    requires args != []
    ensures CommandLine(args) == Encode(args[0]) + RestOf(args)
    ensures RestOf(args) == [] || (RestOf(args)[0] == ' ' && RestOf(args)[1..] == CommandLine(args[1..]))
  {
    hide Encode;
    if |args| == 1 {
      assert Encode(args[0]) + [] == Encode(args[0]);
    } else {
      LineSplits(args);
    }
  }

  lemma ReturnedSplits(args: seq<string>, result: seq<string>)
    requires args != []
    ensures result + ReturnedAll(args) == result + [Returned(args[0])] + ReturnedAll(args[1..])
  {
    hide Returned;
  }

  lemma {:induction false} ScanLine(args: seq<string>, result: seq<string>)
    requires args != []
    ensures ParsedFrom(CommandLine(args), START.(result := result)) == result + ReturnedAll(args)
  {
    hide ParsedFrom, Encode, Returned, CommandLine;
    LineIs(args);
    ScanEncoded(args[0], RestOf(args), result);
    ReturnedSplits(args, result);
    if |args| > 1 {
      ScanLine(args[1..], result + [Returned(args[0])]);
    }
  }

  /** Parsing a printed command line gives back every argument with its runs expanded. */
  lemma PrintThenParse(args: seq<string>)
    ensures Parsed(Some(CommandLine(args))) == ReturnedAll(args)
  {
    if args != [] {
      ScanLine(args, []);
      assert [] + ReturnedAll(args) == ReturnedAll(args);
    }
  }

  // ------------------------------------------------------------------ whatever is between them

  predicate Blanks(t: string) { forall i :: 0 <= i < |t| ==> IsBlank(t[i]) }

  /** The arguments, each after its own gap; tail comes last. */
  function Spaced(args: seq<string>, gaps: seq<string>, tail: string): string
    requires |gaps| == |args|
  {
    if args == [] then tail else gaps[0] + Encode(args[0]) + Spaced(args[1..], gaps[1..], tail)
  }

  lemma SkipOne(c: char, t: string, result: seq<string>)
    requires IsBlank(c)
    ensures ParsedFrom([c] + t, START.(result := result)) == ParsedFrom(t, START.(result := result))
  {
    assert ([c] + t)[1..] == t;
  }

  /** Outside of parameters blanks are skipped. */
  lemma {:induction false} SkipBlanks(gap: string, t: string, result: seq<string>)
    requires Blanks(gap)
    ensures ParsedFrom(gap + t, START.(result := result)) == ParsedFrom(t, START.(result := result))
  {
    hide ParsedFrom;
    if gap == [] {
      assert gap + t == t;
    } else {
      assert gap + t == [gap[0]] + (gap[1..] + t);
      SkipOne(gap[0], gap[1..] + t, result);
      SkipBlanks(gap[1..], t, result);
    }
  }

  lemma SpacedRest(args: seq<string>, gaps: seq<string>, tail: string)
    requires |gaps| == |args| && Blanks(tail) && (forall i :: 0 <= i < |gaps| ==> Blanks(gaps[i]) && gaps[i] != [])
    ensures Spaced(args, gaps, tail) == [] || IsBlank(Spaced(args, gaps, tail)[0])
  {
    hide Encode;
  }

  lemma {:induction false} ScanSpaced(args: seq<string>, gaps: seq<string>, tail: string, result: seq<string>)
    requires |gaps| == |args| && Blanks(tail) && forall i :: 0 <= i < |gaps| ==> Blanks(gaps[i]) && (i > 0 ==> gaps[i] != [])
    ensures ParsedFrom(Spaced(args, gaps, tail), START.(result := result)) == result + ReturnedAll(args)
    decreases |args|
  {
    hide ParsedFrom, Encode, Returned, Closed, Blanks;
    if args == [] {
      assert tail == tail + [];
      SkipBlanks(tail, [], result);
      NothingLeft(result);
    } else {
      var rest := Spaced(args[1..], gaps[1..], tail);
      assert Spaced(args, gaps, tail) == gaps[0] + (Encode(args[0]) + rest);
      SkipBlanks(gaps[0], Encode(args[0]) + rest, result);
      SpacedRest(args[1..], gaps[1..], tail);
      ScanEncoded(args[0], rest, result);
      ReturnedSplits(args, result);
      ClosedSpaced(args[1..], gaps[1..], tail, result, Returned(args[0]));
      ScanSpaced(args[1..], gaps[1..], tail, result + [Returned(args[0])]);
    }
  }

  lemma NothingLeft(result: seq<string>)
    ensures ParsedFrom([], START.(result := result)) == result
  {
  }

  /** After a parameter the rest is parsed as if it began there. */
  lemma ClosedSpaced(args: seq<string>, gaps: seq<string>, tail: string, result: seq<string>, last: string)
    requires |gaps| == |args| && Blanks(tail) && forall i :: 0 <= i < |gaps| ==> Blanks(gaps[i]) && gaps[i] != []
    ensures Closed(Spaced(args, gaps, tail), result, last) == ParsedFrom(Spaced(args, gaps, tail), START.(result := result + [last]))
  {
    hide ParsedFrom, Encode;
    var t := Spaced(args, gaps, tail);
    if t == [] {
      NothingLeft(result + [last]);
    } else {
      SpacedRest(args, gaps, tail);
      SkipOne(t[0], t[1..], result + [last]);
      assert [t[0]] + t[1..] == t;
    }
  }

  /** Arguments are told apart by any run of spaces and tabs, and runs before the first and after the
      last do not matter. */
  lemma AnyBlanksSeparate(args: seq<string>, gaps: seq<string>, tail: string)
    requires |gaps| == |args| && Blanks(tail) && forall i :: 0 <= i < |gaps| ==> Blanks(gaps[i]) && (i > 0 ==> gaps[i] != [])
    ensures Parsed(Some(Spaced(args, gaps, tail))) == ReturnedAll(args)
  {
    ScanSpaced(args, gaps, tail, []);
    assert [] + ReturnedAll(args) == ReturnedAll(args);
  }

  // ------------------------------------------------------------------ quotes

  /** The state after a quote in a parameter, with backslashes pending: an odd run makes it a quote of
      the argument; after an even one it opens or closes a quoted part, but the first of two inside
      such a part is a quote of the argument, and the part goes on. */
  function Quote(s: Scan, doubled: bool): Scan {
    var n := s.backslashes;
    if n % 2 == 1 || (s.quoted && doubled) then s.(buffer := s.buffer + Slashes(n / 2) + [QUOTE], backslashes := 0)
    else s.(quoted := !s.quoted, buffer := s.buffer + Slashes(n / 2), backslashes := 0)
  }

  lemma QuoteIsRead(rest: string, s: Scan)
    requires s.inParameter
    ensures var doubled := rest != [] && rest[0] == QUOTE;
            ParsedFrom([QUOTE] + rest, s) ==
            ParsedFrom(if s.quoted && doubled && s.backslashes % 2 == 0 then rest[1..] else rest, Quote(s, doubled))
  {
    var t := [QUOTE] + rest;
    assert t[0] == QUOTE && t[1..] == rest && (rest != [] ==> t[1] == rest[0] && t[2..] == rest[1..]);
    QuoteSteps(t, s);
    assert ParsedFrom(t, s) == ParsedFrom(t[Step(t, s).1..], Step(t, s).0);
    hide ParsedFrom, Step, Quote;
  }

  lemma QuoteSteps(t: string, s: Scan)
    requires s.inParameter && t != [] && t[0] == QUOTE
    ensures var doubled := |t| > 1 && t[1] == QUOTE;
            Step(t, s) == (Quote(s, doubled), if s.quoted && doubled && s.backslashes % 2 == 0 then 2 else 1)
  {
    assert s.backslashes == 0 ==> s.buffer + Slashes(0) == s.buffer;
  }

  /** Plain text: neither quotes nor backslashes. */
  predicate Text(t: string) { forall i :: 0 <= i < |t| ==> t[i] != QUOTE && t[i] != BS }

  /** In a quoted part, text is copied, blanks and all. */
  lemma {:induction false} TextIsRead(x: string, rest: string, s: Scan)
    requires s.inParameter && s.quoted && s.backslashes == 0 && Text(x)
    ensures ParsedFrom(x + rest, s) == ParsedFrom(rest, s.(buffer := s.buffer + x))
  {
    hide ParsedFrom;
    if x == [] {
      assert x + rest == rest && s.buffer + x == s.buffer;
    } else {
      assert x + rest == Slashes(0) + ([x[0]] + (x[1..] + rest));
      ScanPlain(0, x[0], x[1..] + rest, s);
      assert s.buffer + Slashes(0) + [x[0]] + x[1..] == s.buffer + x;
      assert s.buffer + Slashes(0) + [x[0]] == s.buffer + [x[0]];
      TextIsRead(x[1..], rest, s.(buffer := s.buffer + [x[0]]));
    }
  }

  /** A doubled quote inside a quoted part adds one quote, and the part goes on. */
  lemma DoubledQuoteIsOne(x: string, y: string)
    requires Text(x) && Text(y)
    ensures Parsed(Some([QUOTE] + (x + ([QUOTE, QUOTE] + (y + [QUOTE]))))) == [x + [QUOTE] + y]
  {
    hide ParsedFrom;
    var s0 := Scan(true, true, 0, "", []);
    var s1 := s0.(buffer := x);
    var s2 := s0.(buffer := x + [QUOTE]);
    var s3 := s0.(buffer := x + [QUOTE] + y);
    var rest := y + [QUOTE];
    var line := [QUOTE] + (x + ([QUOTE, QUOTE] + rest));
    ParameterStarts(line, []);
    assert START.(result := []) == START;
    OpensQuote(x + ([QUOTE, QUOTE] + rest), []);
    TextIsRead(x, [QUOTE, QUOTE] + rest, s0);
    assert "" + x == x;
    assert [QUOTE, QUOTE] + rest == [QUOTE] + ([QUOTE] + rest) && ([QUOTE] + rest)[1..] == rest;
    QuoteIsRead([QUOTE] + rest, s1);
    assert x + Slashes(0) + [QUOTE] == x + [QUOTE];
    TextIsRead(y, [QUOTE], s2);
    QuoteIsRead([], s3);
    assert [QUOTE] + [] == [QUOTE] && s3.buffer + Slashes(0) == s3.buffer;
    EndIsRead(s3.(quoted := false));
  }

  lemma EndIsRead(s: Scan)
    requires s.inParameter
    ensures ParsedFrom([], s) == s.result + [s.buffer + Slashes(s.backslashes)]
  {
  }

  /** Quotes in the middle of a parameter do not end it: a quoted part joins what is around it. */
  lemma QuotedPartJoins(x: string, y: string, z: string)
    requires Text(x) && Text(y) && Text(z) && x != [] && !NeedsQuote(x) && !NeedsQuote(z)
    ensures Parsed(Some(x + ([QUOTE] + (y + ([QUOTE] + z))))) == [x + y + z]
  {
    hide ParsedFrom, NeedsQuote;
    var line := x + ([QUOTE] + (y + ([QUOTE] + z)));
    assert !IsBlank(line[0]) by { StartsUnquoted(x); }
    ParameterStarts(line, []);
    assert START.(result := []) == START;
    var s := Scan(true, false, 0, "", []);
    BareTextIsRead(x, [QUOTE] + (y + ([QUOTE] + z)), s);
    assert "" + x == x;
    var s1 := s.(buffer := x);
    QuoteIsRead(y + ([QUOTE] + z), s1);
    assert x + Slashes(0) == x;
    var s2 := s1.(quoted := true);
    TextIsRead(y, [QUOTE] + z, s2);
    var s3 := s2.(buffer := x + y);
    QuoteIsRead(z, s3);
    assert z != [] ==> z[0] != QUOTE;
    assert x + y + Slashes(0) == x + y;
    assert z + [] == z;
    BareTextIsRead(z, [], s3.(quoted := false));
    EndIsRead(s3.(quoted := false, buffer := x + y + z));
    assert x + y + z + Slashes(0) == x + y + z;
  }

  lemma StartsUnquoted(x: string)
    requires x != [] && !NeedsQuote(x)
    ensures !IsBlank(x[0])
  {
  }

  lemma {:induction false} BareTextIsRead(x: string, rest: string, s: Scan)
    requires s.inParameter && !s.quoted && s.backslashes == 0 && Text(x) && !NeedsQuote(x)
    ensures ParsedFrom(x + rest, s) == ParsedFrom(rest, s.(buffer := s.buffer + x))
  {
    if x == [] {
      assert x + rest == rest && s.buffer + x == s.buffer;
    } else {
      StartsUnquoted(x);
      assert !NeedsQuote(x[1..]) by { assert forall i :: 0 <= i < |x[1..]| ==> x[1..][i] == x[i + 1]; }
      hide ParsedFrom, NeedsQuote;
      assert x + rest == Slashes(0) + ([x[0]] + (x[1..] + rest));
      ScanPlain(0, x[0], x[1..] + rest, s);
      assert s.buffer + Slashes(0) + [x[0]] == s.buffer + [x[0]];
      assert s.buffer + [x[0]] + x[1..] == s.buffer + x;
      BareTextIsRead(x[1..], rest, s.(buffer := s.buffer + [x[0]]));
    }
  }

  // ------------------------------------------------------------------ what is written

  /** An argument without quotes and backslashes is written as it is, in quotes exactly if it is empty
      or contains a blank. */
  lemma TextIsWritten(arg: string)
    requires Text(arg)
    ensures Encode(arg) == if arg == "" || NeedsQuote(arg) then [QUOTE] + arg + [QUOTE] else arg
  {
    var q := Quoted(arg);
    TextIsEscaped(arg, 0, q);
    assert arg[0..] == arg;
    assert [] + arg + [] == arg;
  }

  lemma {:induction false} TextIsEscaped(arg: string, k: nat, q: bool)
    requires k <= |arg| && Text(arg)
    ensures Escaped(arg, k, 0, q) == arg[k..]
    decreases |arg| - k
  {
    if k < |arg| {
      TextIsEscaped(arg, k + 1, q);
      assert arg[k..] == [arg[k]] + arg[k + 1..];
    }
  }

  /** Quotes are written with a backslash. */
  lemma QuoteIsWritten(x: string, y: string)
    requires Text(x) && Text(y) && !NeedsQuote(x) && !NeedsQuote(y)
    ensures Encode(x + [QUOTE] + y) == x + [BS, QUOTE] + y
  {
    var arg := x + [QUOTE] + y;
    assert !NeedsQuote(arg) by { assert forall i :: 0 <= i < |arg| ==> arg[i] == if i < |x| then x[i] else if i == |x| then QUOTE else y[i - |x| - 1]; }
    hide NeedsQuote;
    EscapedAfter(x, [QUOTE] + y, 0);
    assert x + ([QUOTE] + y) == arg;
    EscapedIs(arg, |x|);
    EscapedTail(x + [QUOTE], y, 0);
    assert arg[|x|] == QUOTE;
    assert [] + (x + [BS, QUOTE] + y) + [] == x + [BS, QUOTE] + y;
  }

  lemma EscapedIs(arg: string, k: nat)
    requires k < |arg| && arg[k] == QUOTE
    ensures Escaped(arg, k, 0, false) == [BS, QUOTE] + Escaped(arg, k + 1, 0, false)
  {
    assert Slashes(0) + [BS, QUOTE] == [BS, QUOTE];
  }

  lemma {:induction false} EscapedAfter(x: string, rest: string, k: nat)
    requires k <= |x| && Text(x)
    ensures Escaped(x + rest, k, 0, false) == x[k..] + Escaped(x + rest, |x|, 0, false)
    decreases |x| - k
  {
    hide Escaped;
    if k < |x| {
      assert (x + rest)[k] == x[k] && x[k..] == [x[k]] + x[k + 1..];
      TextIsCopied(x + rest, k);
      EscapedAfter(x, rest, k + 1);
    }
  }

  lemma TextIsCopied(arg: string, k: nat)
    requires k < |arg| && arg[k] != QUOTE && arg[k] != BS
    ensures Escaped(arg, k, 0, false) == [arg[k]] + Escaped(arg, k + 1, 0, false)
  {
    assert Slashes(0) + [arg[k]] == [arg[k]];
  }

  lemma {:induction false} EscapedTail(before: string, y: string, k: nat)
    requires k <= |y| && Text(y)
    ensures Escaped(before + y, |before| + k, 0, false) == y[k..]
    decreases |y| - k
  {
    if k < |y| {
      EscapedTail(before, y, k + 1);
      assert (before + y)[|before| + k] == y[k] && y[k..] == [y[k]] + y[k + 1..];
      assert Slashes(0) + [y[k]] == [y[k]];
    }
  }

  // ------------------------------------------------------------------ when that is the identity

  /** A run of two or more backslashes that ends at j ends at a quote, or at the end of an
      argument containing a blank. */
  predicate RunHarmless(arg: string, j: nat)
    requires j <= |arg|
  {
    j >= 2 && arg[j - 1] == BS && arg[j - 2] == BS && (j == |arg| || arg[j] != BS) ==>
      if j == |arg| then NeedsQuote(arg) else arg[j] == QUOTE
  }

  predicate Harmless(arg: string) {
    forall j :: 0 <= j <= |arg| ==> RunHarmless(arg, j)
  }

  /** The n characters before k are the backslashes of one run. */
  ghost predicate Pending(arg: string, k: nat, n: nat) {
    && n <= k <= |arg| && (forall i :: k - n <= i < k ==> arg[i] == BS)
    && (n < k ==> arg[k - n - 1] != BS)
  }

  ghost predicate HarmlessFrom(arg: string, k: nat) {
    forall j :: k <= j <= |arg| ==> RunHarmless(arg, j)
  }

  lemma CountKeeps(n: nat)
    ensures Count(n, false) >= n && (Count(n, false) == n <==> n <= 1)
  {
  }

  lemma RunEnds(arg: string, k: nat, n: nat)
    requires Pending(arg, k, n) && (k == |arg| || arg[k] != BS)
    ensures RunHarmless(arg, k) <==> n <= 1 || (if k == |arg| then NeedsQuote(arg) else arg[k] == QUOTE)
  {
    if n >= 2 { assert arg[k - 1] == BS && arg[k - 2] == BS; }
    if n == 1 { assert arg[k - n] == BS; }
  }

  /** e is at least as long as what it comes from, and is that exactly if nothing was harmed. */
  ghost predicate Grown(arg: string, k: nat, n: nat, e: string)
    requires n <= k <= |arg|
  {
    && |e| >= n + |arg| - k
    && (HarmlessFrom(arg, k) <==> |e| == n + |arg| - k)
    && (HarmlessFrom(arg, k) ==> e == arg[k - n..])
  }

  lemma GrownAtEnd(arg: string, n: nat)
    requires Pending(arg, |arg|, n)
    ensures Grown(arg, |arg|, n, Slashes(if Quoted(arg) then n else Count(n, false)))
  {
    CountKeeps(n);
    RunEnds(arg, |arg|, n);
    assert HarmlessFrom(arg, |arg|) <==> RunHarmless(arg, |arg|);
    assert arg[|arg| - n..] == Slashes(n);
  }

  lemma TailOf(arg: string, k: nat, n: nat)
    requires Pending(arg, k, n) && k < |arg|
    ensures arg[k - n..] == Slashes(n) + [arg[k]] + arg[k + 1..]
  {
    var tail := arg[k - n..];
    assert tail[..n] == Slashes(n);
    assert tail == tail[..n] + ([arg[k]] + arg[k + 1..]);
  }

  lemma JoinedLength(a: string, c: char, e: string)
    ensures |a + [c] + e| == |a| + 1 + |e|
  {
  }

  /** A run of n that became m, the character that ended it, and what the rest became. */
  lemma GrownAfterRun(arg: string, k: nat, n: nat, m: nat, e: string)
    requires Pending(arg, k, n) && k < |arg| && arg[k] != BS && Grown(arg, k + 1, 0, e)
    requires m == if arg[k] == QUOTE then n else Count(n, false)
    ensures Grown(arg, k, n, Slashes(m) + [arg[k]] + e)
  {
    CountKeeps(n);
    RunEnds(arg, k, n);
    HarmlessNext(arg, k);
    TailOf(arg, k, n);
    JoinedLength(Slashes(m), arg[k], e);
    hide HarmlessFrom, RunHarmless, Pending, Count, NeedsQuote;
    assert arg[k + 1 - 0..] == arg[k + 1..];
  }

  lemma {:induction false} ExpandedGrows(arg: string, k: nat, n: nat)
    requires Pending(arg, k, n)
    ensures Grown(arg, k, n, Expanded(arg, k, n, Quoted(arg)))
    decreases |arg| - k
  {
    if k == |arg| {
      GrownAtEnd(arg, n);
    } else if arg[k] == BS {
      ExpandedGrows(arg, k + 1, n + 1);
      assert RunHarmless(arg, k);
      HarmlessNext(arg, k);
    } else {
      ExpandedGrows(arg, k + 1, 0);
      hide Grown;
      GrownAfterRun(arg, k, n, if arg[k] == QUOTE then n else Count(n, false), Expanded(arg, k + 1, 0, Quoted(arg)));
    }
  }

  lemma HarmlessNext(arg: string, k: nat)
    requires k < |arg|
    ensures HarmlessFrom(arg, k) <==> RunHarmless(arg, k) && HarmlessFrom(arg, k + 1)
  {
  }

  lemma ReturnedUnchanged(arg: string)
    ensures Returned(arg) == arg <==> Harmless(arg)
  {
    ExpandedGrows(arg, 0, 0);
    assert arg[0..] == arg;
    assert Harmless(arg) <==> HarmlessFrom(arg, 0);
  }

  /** The round trip is the identity exactly for the lists whose arguments are all harmless. */
  lemma RoundTrip(args: seq<string>)
    ensures Parsed(Some(CommandLine(args))) == args <==> forall arg <- args :: Harmless(arg)
  {
    PrintThenParse(args);
    forall arg ensures Returned(arg) == arg <==> Harmless(arg) { ReturnedUnchanged(arg); }
    hide Returned, Harmless, Parsed;
    if ReturnedAll(args) == args {
      forall arg | arg in args ensures Harmless(arg) {
        var i :| 0 <= i < |args| && args[i] == arg;
        assert ReturnedAll(args)[i] == args[i];
      }
    }
    if forall arg <- args :: Harmless(arg) {
      assert forall i :: 0 <= i < |args| ==> args[i] in args && ReturnedAll(args)[i] == args[i];
    }
  }

  /** A UNC path has such a run: if the rest of it is harmless, it comes back with its two leading
      backslashes doubled. */
  lemma UncPathsAreDoubled(server: string)
    requires server != "" && server[0] != BS && server[0] != QUOTE && HarmlessFrom([BS, BS] + server, 3)
    ensures var arg := [BS, BS] + server; Parsed(Some(CommandLine([arg]))) == [[BS, BS] + arg]
  {
    var arg := [BS, BS] + server;
    var q := Quoted(arg);
    assert arg[0] == BS && arg[1] == BS && arg[2] == server[0];
    PrintThenParse([arg]);
    ExpandedGrows(arg, 3, 0);
    assert Expanded(arg, 2, 2, q) == Slashes(4) + [arg[2]] + Expanded(arg, 3, 0, q);
    assert Expanded(arg, 1, 1, q) == Expanded(arg, 2, 2, q) && Returned(arg) == Expanded(arg, 1, 1, q);
    assert Expanded(arg, 3, 0, q) == arg[3..];
    hide Expanded, Quoted, CommandLine, HarmlessFrom, Returned;
    assert arg == [BS, BS] + [arg[2]] + arg[3..] && Slashes(4) == [BS, BS] + [BS, BS];
    assert Slashes(4) + [arg[2]] + arg[3..] == [BS, BS] + arg;
    assert ReturnedAll([arg]) == [[BS, BS] + arg];
  }

  // ------------------------------------------------------------------ the code

  class StringBuilder {
    var content: string

    constructor ()
      ensures content == ""
    {
      content := "";
    }

    method Append(s: string)
      modifies this
      ensures content == old(content) + s
    {
      content := content + s;
    }

    method Clear()
      modifies this
      ensures content == ""
    {
      content := "";
    }
  }

  method AddBackslashes(builder: StringBuilder, backslashes: nat, beforeQuote: bool)
    modifies builder
    ensures builder.content == old(builder.content) + Slashes(Count(backslashes, beforeQuote))
  {
    if backslashes == 0 {
      assert builder.content == builder.content + Slashes(0);
      return;
    }
    var count := if beforeQuote || backslashes % 2 == 0 then backslashes * 2 else (backslashes - 1) * 2 + 1;
    for i := 0 to count
      invariant builder.content == old(builder.content) + Slashes(i)
    {
      builder.Append([BS]);
    }
  }

  method Inspect(arg: string) returns (needQuote: bool, containsQuoteOrBackslash: bool)
    ensures needQuote == NeedsQuote(arg) && containsQuoteOrBackslash == Special(arg)
  {
    needQuote, containsQuoteOrBackslash := false, false;
    for i := 0 to |arg|
      invariant needQuote <==> exists j :: 0 <= j < i && IsBlank(arg[j])
      invariant containsQuoteOrBackslash <==> exists j :: 0 <= j < i && (arg[j] == QUOTE || arg[j] == BS)
    {
      needQuote := needQuote || IsBlank(arg[i]);
      containsQuoteOrBackslash := containsQuoteOrBackslash || arg[i] == QUOTE || arg[i] == BS;
    }
  }

  method AppendEscaped(builder: StringBuilder, arg: string)
    modifies builder
    ensures builder.content == old(builder.content) + Encode(arg)
  {
    if arg == "" {
      builder.Append([QUOTE, QUOTE]);
      return;
    }
    var needQuote, containsQuoteOrBackslash := Inspect(arg);
    if needQuote {
      builder.Append([QUOTE]);
    } else if !containsQuoteOrBackslash {
      builder.Append(arg);
      PlainIsEscaped(arg, 0);
      assert arg[0..] == arg;
      return;
    }
    AppendBody(builder, arg, needQuote);
    if needQuote {
      builder.Append([QUOTE]);
    }
  }

  /** The loop of AppendEscaped. */
  method AppendBody(builder: StringBuilder, arg: string, needQuote: bool)
    modifies builder
    ensures builder.content == old(builder.content) + Escaped(arg, 0, 0, needQuote)
  {
    var index, backslashes := 0, 0;
    while index < |arg|
      invariant 0 <= index <= |arg| && backslashes >= 0
      invariant builder.content + Escaped(arg, index, backslashes, needQuote) == old(builder.content) + Escaped(arg, 0, 0, needQuote)
    {
      var c := arg[index];
      if c == BS {
        backslashes := backslashes + 1;
      } else {
        AddBackslashes(builder, backslashes, c == QUOTE);
        backslashes := 0;
        builder.Append(if c == QUOTE then [BS, c] else [c]);
      }
      index := index + 1;
    }
    AddBackslashes(builder, backslashes, needQuote);
  }

  method ToString(args: seq<string>) returns (line: string)
    ensures line == CommandLine(args)
  {
    var builder := new StringBuilder();
    for i := 0 to |args|
      invariant fresh(builder) && builder.content == CommandLine(args[..i])
    {
      assert args[..i + 1][..i] == args[..i];
      LineIsEmpty(args[..i]);
      if |builder.content| != 0 {
        builder.Append([' ']);
      }
      AppendEscaped(builder, args[i]);
    }
    assert args[..|args|] == args;
    return builder.content;
  }

  lemma LineIsEmpty(args: seq<string>)
    ensures CommandLine(args) == "" <==> args == []
  {
    if args != [] {
      EncodedStarts(args[|args| - 1]);
    }
  }

  method ParseBackslashes(backslashes: nat, buffer: StringBuilder, c: char) returns (used: bool, left: nat)
    modifies buffer
    ensures forall s: Scan :: s.backslashes == backslashes && s.buffer == old(buffer.content) ==>
              Flushed(s, c) == (s.(backslashes := left, buffer := buffer.content), used)
  {
    if c == BS {
      return true, backslashes + 1;
    }
    if backslashes == 0 {
      return false, 0;
    }
    if c == QUOTE {
      if backslashes % 2 == 0 {
        buffer.Append(Slashes(backslashes / 2));
      } else {
        buffer.Append(Slashes((backslashes - 1) / 2));
        buffer.Append([c]);
        return true, 0;
      }
    } else {
      buffer.Append(Slashes(backslashes));
    }
    return false, 0;
  }

  method Parse(args: Option<string>) returns (result: seq<string>)
    ensures result == Parsed(args)
  {
    if args.None? {
      return [];
    }
    var t := args.value;
    result := [];
    var buffer := new StringBuilder();
    var inParameter, quoted, backslashes := false, false, 0;
    var i := 0;
    while i < |t|
      invariant 0 <= i <= |t| && fresh(buffer) && backslashes >= 0
      invariant ParsedFrom(t[i..], Scan(inParameter, quoted, backslashes, buffer.content, result)) == ParsedFrom(t, START)
    {
      var c := t[i];
      ghost var rest, s := t[i..], Scan(inParameter, quoted, backslashes, buffer.content, result);
      assert rest[0] == c && (|rest| > 1 ==> rest[1] == t[i + 1]);
      if !inParameter && c != ' ' && c != '\t' {
        inParameter := true;
      }
      if !inParameter {
        i := i + 1;
        continue;
      }
      var used;
      used, backslashes := ParseBackslashes(backslashes, buffer, c);
      if used {
        i := i + 1;
        continue;
      }
      if quoted {
        if c == QUOTE {
          if i + 1 < |t| && t[i + 1] == QUOTE {
            i := i + 2;
            buffer.Append([c]);
            continue;
          }
          quoted := false;
        } else {
          buffer.Append([c]);
        }
      } else {
        if c == ' ' || c == '\t' {
          inParameter := false;
          result := result + [buffer.content];
          buffer.Clear();
        } else if c == QUOTE {
          quoted := true;
        } else {
          buffer.Append([c]);
        }
      }
      i := i + 1;
    }
    if inParameter {
      buffer.Append(Slashes(backslashes));
      result := result + [buffer.content];
    }
  }
}
