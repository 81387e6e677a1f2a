/** Which paths a ruleset decides unlike the list of its rules, in terms of the list
    (gps/pkgtree/ignored_ruleset.go). */
module HiddenRules {
  import opened Constraints
  import opened PrefixTrees
  import opened IgnoredRulesets

  predicate Literal(rule: string) { Accepted(rule) && !Wild(rule) }

  /** A wildcard from the list that ignores p, by its stem. */
  predicate Above(rules: seq<string>, w: string, p: string) { w != "" && w + "*" in rules && Prefix(w, p) }

  /** k lies below the wildcard w*, but sorts before it: what follows w in k sorts before the asterisk. */
  predicate SortsBefore(k: string, w: string) { ProperPrefix(w, k) && k[|w|] < '*' }

  /** p is under a wildcard, but also under a literal rule that sorts before every wildcard above p. */
  ghost predicate HiddenIn(rules: seq<string>, p: string) {
    && !(p in rules && Literal(p))
    && (exists w :: Above(rules, w, p))
    && exists k :: k in rules && Literal(k) && ProperPrefix(k, p) && forall w :: Above(rules, w, p) ==> SortsBefore(k, w)
  }

  // ------------------------------------------------------------------ what building in order keeps

  ghost predicate WildFound(t: Tree, w: string) {
    var k := LongestPrefix(t, w);
    k.Some? && t[k.value]
  }

  /** A literal rule is stored unless it sorts after a wildcard above it. */
  ghost predicate Kept(t: Tree, k: string) {
    k in t || exists x :: x in t && t[x] && ProperPrefix(x, k) && !SortsBefore(k, x)
  }

  ghost predicate KeyInOrder(t: Tree, rules: seq<string>, k: string) {
    k in t && !t[k] ==> forall w :: w + "*" in rules && w != "" && ProperPrefix(w, k) ==> SortsBefore(k, w)
  }

  ghost predicate RuleSettled(t: Tree, rule: string) {
    if Wild(rule) then WildFound(t, Stem(rule)) else IsIgnored(t, rule) && Kept(t, rule)
  }

  ghost predicate Settled(t: Tree, rules: seq<string>) {
    (forall r <- rules :: Accepted(r) ==> RuleSettled(t, r)) && forall k :: KeyInOrder(t, rules, k)
  }

  // ------------------------------------------------------------------ sorting

  lemma PrefixSortsFirst(a: string, b: string)
    requires ProperPrefix(a, b)
    ensures Less(a, b)
  {
    LessAfter(a, "", b[|a|..]);
    assert a + "" == a && a + b[|a|..] == b;
  }

  lemma BelowWild(w: string, k: string)
    requires ProperPrefix(w, k)
    ensures SortsBefore(k, w) ==> Less(k, w + "*")
    ensures !Less(w + "*", k) && !Wild(k) ==> SortsBefore(k, w)
  {
    var rest := k[|w|..];
    assert k == w + rest;
    LessAfter(w, rest, "*");
    LessAfter(w, "*", rest);
    assert "*"[1..] == "" && rest[0] == k[|w|];
    if rest[0] == '*' && |rest| == 1 { assert k[|k| - 1] == '*'; }
  }

  // ------------------------------------------------------------------ adding a rule

  lemma LongestAfter(t: Tree, s: string, v: bool, p: string)
    ensures var k, m := LongestPrefix(t, p), LongestPrefix(t[s := v], p);
            m == if Prefix(s, p) && (k.None? || |k.value| <= |s|) then Some(s) else k
  {
    var k, m := LongestPrefix(t, p), LongestPrefix(t[s := v], p);
    if m.Some? && Prefix(s, p) { PrefixesAlike(m.value, s, p); }
    if m.Some? && k.Some? { PrefixesAlike(m.value, k.value, p); }
    if k.Some? && Prefix(s, p) { PrefixesAlike(k.value, s, p); }
  }

  lemma PrefixesAlike(a: string, b: string, p: string)
    requires Prefix(a, p) && Prefix(b, p)
    ensures |a| == |b| ==> a == b
  {
  }

  /** The rule adds a key; none of the rules before it sorts later, and no wildcard is above it. */
  ghost predicate Adding(t: Tree, before: seq<string>, rule: string, s: string, v: bool) {
    && FromRules(t, before) && Settled(t, before) && (forall r <- before :: !Less(rule, r))
    && Accepted(rule) && v == Wild(rule) && s == (if v then Stem(rule) else rule) && !WildFound(t, rule)
  }

  lemma OldRules(t: Tree, before: seq<string>, rule: string, s: string, v: bool, r: string)
    requires Adding(t, before, rule, s, v) && r in before && Accepted(r)
    ensures RuleSettled(t[s := v], r)
  {
    var u := t[s := v];
    assert RuleSettled(t, r);
    if Wild(r) {
      LongestAfter(t, s, v, Stem(r));
      if !v && Prefix(s, Stem(r)) {
        PrefixesChain(s, Stem(r), r);
        PrefixSortsFirst(s, r);
        assert false;
      }
    } else {
      LongestAfter(t, s, v, r);
      if !v && Prefix(s, r) && s != r { PrefixSortsFirst(s, r); assert false; }
      if x :| x in t && t[x] && ProperPrefix(x, r) && !SortsBefore(r, x) {
        NotOverwritten(t, before, rule, s, v, x);
        assert x in u && u[x];
      }
    }
  }

  /** Wildcards stay. */
  lemma NotOverwritten(t: Tree, before: seq<string>, rule: string, s: string, v: bool, x: string)
    requires Adding(t, before, rule, s, v) && x in t && t[x]
    ensures t[s := v][x]
  {
    assert x[..|x|] == x;
  }

  lemma NewRule(t: Tree, before: seq<string>, rule: string, s: string, v: bool)
    requires Adding(t, before, rule, s, v)
    ensures RuleSettled(t[s := v], rule)
  {
    assert s[..|s|] == s;
    LongestAfter(t, s, v, s);
  }

  /** A key put in below wildcards that are there already is below a literal that sorts before them. */
  lemma NewKeyInOrder(t: Tree, before: seq<string>, rule: string, s: string, v: bool)
    requires Adding(t, before, rule, s, v)
    ensures KeyInOrder(t[s := v], before + [rule], s)
  {
    forall w | !v && w + "*" in before + [rule] && w != "" && ProperPrefix(w, s) ensures SortsBefore(s, w) {
      assert Wild(w + "*") && Stem(w + "*") == w;
      assert RuleSettled(t, w + "*");
      var x, k := LongestPrefix(t, w).value, LongestPrefix(t, s);
      PrefixesChain(x, w, s);
      if |k.value| <= |w| {
        PrefixesCompare(k.value, w, s);
        PrefixesAlike(k.value, x, w);
        assert false;
      }
      PrefixesCompare(w, k.value, s);
      assert KeyInOrder(t, before, k.value);
    }
  }

  lemma OldKeysInOrder(t: Tree, before: seq<string>, rule: string, s: string, v: bool, k: string)
    requires Adding(t, before, rule, s, v) && k != s
    ensures KeyInOrder(t[s := v], before + [rule], k)
  {
    assert KeyInOrder(t, before, k);
    forall w | k in t && !t[k] && w + "*" in before + [rule] && w != "" && ProperPrefix(w, k) ensures SortsBefore(k, w) {
      if w + "*" !in before { BelowWild(w, k); }
    }
  }

  lemma AddingSettles(t: Tree, before: seq<string>, rule: string, s: string, v: bool)
    requires Adding(t, before, rule, s, v)
    ensures Settled(t[s := v], before + [rule])
  {
    hide RuleSettled, KeyInOrder, Adding;
    var u, all := t[s := v], before + [rule];
    forall r | r in all && Accepted(r) ensures RuleSettled(u, r) {
      if r in before { OldRules(t, before, rule, s, v, r); } else { NewRule(t, before, rule, s, v); }
    }
    forall k ensures KeyInOrder(u, all, k) {
      if k == s { NewKeyInOrder(t, before, rule, s, v); } else { OldKeysInOrder(t, before, rule, s, v, k); }
    }
  }

  /** A rule with a wildcard above it adds nothing. */
  lemma SkippingSettles(t: Tree, before: seq<string>, rule: string)
    requires FromRules(t, before) && Settled(t, before) && (forall r <- before :: !Less(rule, r)) && Accepted(rule) && WildFound(t, rule)
    ensures Settled(t, before + [rule])
  {
    var x := LongestPrefix(t, rule).value;
    if x == rule { LaterThanPrefix(rule); assert false; }
    assert RuleSettled(t, rule) by {
      BelowWild(x, rule);
      if Wild(rule) {
        assert Prefix(x, Stem(rule));
        forall k | k in t && Prefix(k, Stem(rule)) ensures |k| <= |x| { PrefixesChain(k, Stem(rule), rule); }
        PrefixesAlike(x, LongestPrefix(t, Stem(rule)).value, Stem(rule));
      }
    }
    forall k ensures KeyInOrder(t, before + [rule], k) {
      assert KeyInOrder(t, before, k);
      forall w | k in t && !t[k] && w + "*" in before + [rule] && w != "" && ProperPrefix(w, k) ensures SortsBefore(k, w) {
        if w + "*" !in before { BelowWild(w, k); }
      }
    }
  }

  lemma {:induction false} BuildIsSettled(rules: seq<string>)
    requires Sorted(rules)
    ensures Settled(Build(rules), rules)
  {
    if rules != [] {
      var init, last := rules[..|rules| - 1], rules[|rules| - 1];
      assert rules == init + [last];
      BuildIsSettled(init);
      BuildIsBuilt(init);
      forall r | r in init ensures !Less(last, r) {
        var i :| 0 <= i < |init| && init[i] == r;
        assert rules[i] == r;
      }
      var t := Build(init);
      if !Accepted(last) { DroppedSettles(t, init, last); }
      else if WildFound(t, last) { SkippingSettles(t, init, last); }
      else { AddingSettles(t, init, last, if Wild(last) then Stem(last) else last, Wild(last)); }
    }
  }

  lemma DroppedSettles(t: Tree, before: seq<string>, rule: string)
    requires Settled(t, before) && !Accepted(rule)
    ensures Settled(t, before + [rule])
  {
    forall k ensures KeyInOrder(t, before + [rule], k) {
      assert KeyInOrder(t, before, k);
    }
  }

  // ------------------------------------------------------------------ what is hidden

  /** Above a path that a literal hides from its wildcards, no wildcard reaches down to the literal. */
  lemma WildsAreShort(t: Tree, rules: seq<string>, p: string, w: string)
    requires Settled(t, rules) && Hidden(t, p) && Above(rules, w, p)
    ensures SortsBefore(LongestPrefix(t, p).value, w)
  {
    var k := LongestPrefix(t, p).value;
    assert Wild(w + "*") && Stem(w + "*") == w;
    assert RuleSettled(t, w + "*");
    var x := LongestPrefix(t, w).value;
    PrefixesChain(x, w, p);
    if |k| <= |w| {
      PrefixesCompare(k, w, p);
      PrefixesAlike(x, k, p);
      assert false;
    }
    PrefixesCompare(w, k, p);
    assert KeyInOrder(t, rules, k);
  }

  lemma HiddenIsHiddenIn(t: Tree, rules: seq<string>, p: string)
    requires Built(t, rules) && Settled(t, rules) && Hidden(t, p)
    ensures HiddenIn(rules, p)
  {
    var k := LongestPrefix(t, p).value;
    forall w | Above(rules, w, p) ensures SortsBefore(k, w) { WildsAreShort(t, rules, p, w); }
    assert k in rules && Literal(k) && ProperPrefix(k, p) by { PrefixesAlike(k, p, p); assert p[..|p|] == p; }
    var w :| w in t && t[w] && Prefix(w, p);
    assert Above(rules, w, p);
    assert p in rules && Literal(p) ==> RuleSettled(t, p);
  }

  /** The literal is stored. */
  lemma HidingIsStored(t: Tree, rules: seq<string>, p: string, k: string)
    requires Built(t, rules) && Settled(t, rules)
    requires k in rules && Literal(k) && ProperPrefix(k, p) && forall w :: Above(rules, w, p) ==> SortsBefore(k, w)
    ensures k in t && !t[k]
  {
    assert RuleSettled(t, k);
    if x :| x in t && t[x] && ProperPrefix(x, k) && !SortsBefore(k, x) {
      PrefixesChain(x, k, p);
      assert Above(rules, x, p);
      assert false;
    }
    if t[k] {
      assert Above(rules, k, p);
      assert false;
    }
  }

  lemma HiddenInIsHidden(t: Tree, rules: seq<string>, p: string)
    requires Built(t, rules) && Settled(t, rules) && HiddenIn(rules, p)
    ensures Hidden(t, p)
  {
    var k :| k in rules && Literal(k) && ProperPrefix(k, p) && forall w :: Above(rules, w, p) ==> SortsBefore(k, w);
    HidingIsStored(t, rules, p, k);
    var x := LongestPrefix(t, p).value;
    assert !t[x] by {
      if t[x] { assert Above(rules, x, p); assert false; }
    }
    var w :| Above(rules, w, p);
    assert Wild(w + "*") && Stem(w + "*") == w && Covers(t, w + "*");
    var y :| y in t && t[y] && Prefix(y, w);
    PrefixesChain(y, w, p);
  }

  lemma SameHidden(rules: seq<string>, ig: seq<string>, p: string)
    requires forall r :: r in rules <==> r in ig
    ensures HiddenIn(rules, p) ==> HiddenIn(ig, p)
  {
    assert forall w :: Above(rules, w, p) <==> Above(ig, w, p);
  }

  /** The ruleset made of a list decides a path as the rules in the list do, if and only if no literal
      rule hides the wildcards above it. */
  lemma AgreesUnlessHiddenIn(t: Tree, ig: seq<string>, p: string)
    requires BuiltFrom(t, ig) && p != ""
    ensures (IsIgnored(t, p) <==> Listed(ig, p)) <==> !HiddenIn(ig, p)
  {
    var rules :| Sorted(rules) && multiset(rules) == multiset(ig) && t == Build(rules);
    BuildIsBuilt(rules);
    BuildIsSettled(rules);
    SameRules(rules, ig, p);
    AgreesUnlessHidden(t, rules, p);
    forall r ensures r in rules <==> r in ig {
      assert r in rules <==> r in multiset(rules);
      assert r in ig <==> r in multiset(ig);
    }
    hide HiddenIn, Hidden, IsIgnored, Built, Settled, Sorted, IgnoredRulesets.Listed;
    SameHidden(rules, ig, p);
    SameHidden(ig, rules, p);
    if Hidden(t, p) { HiddenIsHiddenIn(t, rules, p); }
    if HiddenIn(rules, p) { HiddenInIsHidden(t, rules, p); }
  }
}
