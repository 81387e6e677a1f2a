/** Rules for ignoring import paths, kept in a prefix tree (gps/pkgtree/ignored_ruleset.go). */
module IgnoredRulesets {
  import opened Constraints
  import opened Identifiers
  import opened PrefixTrees

  // ------------------------------------------------------------------ strings

  predicate Less(a: string, b: string) {
    if b == "" then false
    else if a == "" then true
    else a[0] < b[0] || (a[0] == b[0] && Less(a[1..], b[1..]))
  }

  predicate Sorted(ss: seq<string>) {
    forall i, j :: 0 <= i < j < |ss| ==> !Less(ss[j], ss[i])
  }

  lemma {:induction false} LessAfter(s: string, a: string, b: string)
    ensures Less(s + a, s + b) <==> Less(a, b)
  {
    if s == "" {
      assert s + a == a && s + b == b;
    } else {
      LessAfter(s[1..], a, b);
      assert (s + a)[1..] == s[1..] + a && (s + b)[1..] == s[1..] + b;
    }
  }

  lemma {:induction false} LessTransitive(a: string, b: string, c: string)
    requires !Less(b, a) && !Less(c, b)
    ensures !Less(c, a)
  {
    if a != "" && b != "" && c != "" && a[0] == b[0] == c[0] {
      LessTransitive(a[1..], b[1..], c[1..]);
    }
  }

  lemma {:induction false} LessTotal(a: string, b: string)
    ensures !Less(a, b) || !Less(b, a)
  {
    if a != "" && b != "" {
      LessTotal(a[1..], b[1..]);
    }
  }

  // ------------------------------------------------------------------ the tree

  /** Stored keys, true for wildcards. */
  type Tree = map<string, bool>

  predicate IsIgnored(t: Tree, path: string) {
    path != "" && var k := LongestPrefix(t, path); k.Some? && (t[k.value] || path == k.value)
  }

  // ------------------------------------------------------------------ the rules

  predicate Wild(rule: string) { rule != "" && rule[|rule| - 1] == '*' }

  function Stem(rule: string): string
    requires Wild(rule)
  {
    rule[..|rule| - 1]
  }

  /** The empty rule and the global one are dropped. */
  predicate Accepted(rule: string) { rule != "" && rule != "*" }

  /** What a single rule says. */
  predicate Ignores(rule: string, path: string) {
    Accepted(rule) && if Wild(rule) then Prefix(Stem(rule), path) else rule == path
  }

  ghost predicate Listed(rules: seq<string>, path: string) {
    exists r :: r in rules && Ignores(r, path)
  }

  /** No character sorts before the asterisk. */
  predicate Plain(rule: string) {
    forall i :: 0 <= i < |rule| ==> rule[i] >= '*'
  }

  // ------------------------------------------------------------------ what building keeps

  ghost predicate FromRules(t: Tree, rules: seq<string>) {
    forall k <- t :: if t[k] then k + "*" in rules && k != "" else k in rules && Accepted(k) && !Wild(k)
  }

  /** A literal is stored or under a stored wildcard; so is a wildcard's stem. */
  ghost predicate Covers(t: Tree, rule: string) {
    if Wild(rule) then exists w :: w in t && t[w] && Prefix(w, Stem(rule))
    else rule in t || exists w :: w in t && t[w] && Prefix(w, rule)
  }

  /** No stored key extends a wildcard. */
  ghost predicate Flat(t: Tree) {
    forall w, k :: w in t && t[w] && k in t ==> !ProperPrefix(w, k)
  }

  ghost predicate CoversAll(t: Tree, rules: seq<string>) {
    forall r <- rules :: Accepted(r) ==> Covers(t, r)
  }

  ghost predicate Built(t: Tree, rules: seq<string>) {
    FromRules(t, rules) && CoversAll(t, rules)
  }

  /** In a flat tree the wildcard above a path is what the tree finds. */
  lemma WildIsLongest(t: Tree, w: string, p: string)
    requires Flat(t) && w in t && t[w] && Prefix(w, p)
    ensures LongestPrefix(t, p) == Some(w)
  {
    var k := LongestPrefix(t, p).value;
    PrefixesCompare(w, k, p);
  }

  /** A flat tree decides what its own keys, read as rules, say. */
  lemma FlatDecides(t: Tree, p: string)
    requires Flat(t) && p != ""
    ensures IsIgnored(t, p) <==> (p in t || exists w :: w in t && t[w] && Prefix(w, p))
  {
    if p in t {
      assert p[..|p|] == p;
    }
    if w :| w in t && t[w] && Prefix(w, p) {
      WildIsLongest(t, w, p);
    }
  }

  /** What the tree ignores, some rule ignores. */
  lemma IgnoredIsListed(t: Tree, rules: seq<string>, p: string)
    requires Built(t, rules) && IsIgnored(t, p)
    ensures Listed(rules, p)
  {
    var k := LongestPrefix(t, p).value;
    if t[k] {
      assert Wild(k + "*") && Stem(k + "*") == k && Ignores(k + "*", p);
    } else {
      assert Ignores(k, p);
    }
  }

  /** What some rule ignores is stored or under a stored wildcard. */
  lemma ListedIsCovered(t: Tree, rules: seq<string>, p: string)
    requires Built(t, rules) && Listed(rules, p)
    ensures p in t || exists w :: w in t && t[w] && Prefix(w, p)
  {
    var r :| r in rules && Ignores(r, p);
    assert Covers(t, r);
    if Wild(r) {
      var w :| w in t && t[w] && Prefix(w, Stem(r));
      PrefixesChain(w, Stem(r), p);
    }
  }

  /** A stored literal hides the wildcard above it from what lies below both. */
  ghost predicate Hidden(t: Tree, p: string) {
    var k := LongestPrefix(t, p);
    k.Some? && !t[k.value] && k.value != p && exists w :: w in t && t[w] && Prefix(w, p)
  }

  /** Path by path: the index agrees with the list of rules exactly where no literal hides a
      wildcard. */
  lemma AgreesUnlessHidden(t: Tree, rules: seq<string>, p: string)
    requires Built(t, rules) && p != ""
    ensures (IsIgnored(t, p) <==> Listed(rules, p)) <==> !Hidden(t, p)
  {
    assert p[..|p|] == p;
    if IsIgnored(t, p) {
      IgnoredIsListed(t, rules, p);
    } else if Listed(rules, p) {
      ListedIsCovered(t, rules, p);
    }
    if w :| w in t && t[w] && Prefix(w, p) {
      assert w + "*" in rules && Wild(w + "*") && Stem(w + "*") == w && Ignores(w + "*", p);
    }
  }

  /** In a flat tree nothing is hidden, so it agrees everywhere. */
  lemma FlatAgrees(t: Tree, rules: seq<string>, p: string)
    requires Built(t, rules) && Flat(t) && p != ""
    ensures IsIgnored(t, p) <==> Listed(rules, p)
  {
    if w :| w in t && t[w] && Prefix(w, p) {
      WildIsLongest(t, w, p);
    }
    AgreesUnlessHidden(t, rules, p);
  }

  // ------------------------------------------------------------------ adding one rule

  /** The body of the loop. */
  function Insert(t: Tree, rule: string): Tree {
    if !Accepted(rule) then t
    else
      var k := LongestPrefix(t, rule);
      if k.Some? && t[k.value] then t
      else if Wild(rule) then t[Stem(rule) := true] else t[rule := false]
  }

  /** Rules that sort later than a wildcard do not push anything below it. */
  lemma WildSortsFirst(s: string, k: string, rule: string)
    requires ProperPrefix(s, k) && Plain(k) && (rule == k + "*" || (rule == k && !Wild(k)))
    ensures Less(s + "*", rule)
  {
    var rest := rule[|s|..];
    assert rule == s + rest;
    assert rest[0] == k[|s|];
    LessAfter(s, "*", rest);
    if rest[0] == '*' {
      assert |rest| > 1;
      assert "*"[1..] == "";
    }
  }

  lemma LaterThanPrefix(a: string)
    ensures Less(a, a + "*")
  {
    LessAfter(a, "", "*");
    assert a + "" == a;
  }

  /** Before a rule is added, rules before it being sorted no later, nothing lies below its stem. */
  lemma NothingBelow(t: Tree, before: seq<string>, rule: string, k: string)
    requires FromRules(t, before) && Wild(rule) && (forall r <- before :: !Less(rule, r) && Plain(r))
    requires k in t
    ensures !ProperPrefix(Stem(rule), k)
  {
    if ProperPrefix(Stem(rule), k) {
      assert Stem(rule) + "*" == rule;
      var r := if t[k] then k + "*" else k;
      assert r in before && Plain(r);
      assert forall i :: 0 <= i < |k| ==> r[i] == k[i];
      WildSortsFirst(Stem(rule), k, r);
      assert false;
    }
  }

  lemma CoversMore(t: Tree, u: Tree, r: string, s: string, v: bool)
    requires u == t[s := v] && (s in t && t[s] ==> v) && Covers(t, r)
    ensures Covers(u, r)
  {
    if Wild(r) {
      var w :| w in t && t[w] && Prefix(w, Stem(r));
      assert w in u && u[w];
    } else if w :| w in t && t[w] && Prefix(w, r) {
      assert w in u && u[w];
    }
  }

  lemma Redundant(t: Tree, before: seq<string>, rule: string, w: string)
    requires Built(t, before) && (forall r <- before :: !Less(rule, r)) && Accepted(rule)
    requires w in t && t[w] && Prefix(w, rule)
    ensures Built(t, before + [rule])
  {
    if w == rule {
      LaterThanPrefix(rule);
      assert false;
    }
    if Wild(rule) {
      assert Stem(rule)[..|w|] == rule[..|w|];
      assert Prefix(w, Stem(rule));
    }
    assert Covers(t, rule);
  }

  lemma Inserted(t: Tree, before: seq<string>, rule: string, s: string, v: bool)
    requires Built(t, before) && Accepted(rule)
    requires v == Wild(rule) && s == if v then Stem(rule) else rule
    requires var k := LongestPrefix(t, rule); k.None? || !t[k.value]
    ensures Built(t[s := v], before + [rule])
  {
    var u, all := t[s := v], before + [rule];
    assert v ==> s + "*" == rule && s != "";
    assert !v ==> Prefix(s, rule);
    assert Prefix(s, s);
    forall r | r in all && Accepted(r) ensures Covers(u, r) {
      if r in before {
        CoversMore(t, u, r, s, v);
      } else if v {
        assert s in u && u[s] && Prefix(s, Stem(rule));
      }
    }
  }

  lemma InsertKeeps(t: Tree, before: seq<string>, rule: string)
    requires Built(t, before) && forall r <- before :: !Less(rule, r)
    ensures Built(Insert(t, rule), before + [rule])
  {
    var k := LongestPrefix(t, rule);
    if Accepted(rule) {
      if k.Some? && t[k.value] {
        Redundant(t, before, rule, k.value);
      } else {
        Inserted(t, before, rule, if Wild(rule) then Stem(rule) else rule, Wild(rule));
      }
    }
  }

  /** With nothing sorting before the asterisk the tree stays flat. */
  lemma InsertKeepsFlat(t: Tree, before: seq<string>, rule: string)
    requires FromRules(t, before) && Flat(t) && forall r <- before :: !Less(rule, r) && Plain(r)
    ensures Flat(Insert(t, rule))
  {
    var k := LongestPrefix(t, rule);
    if Accepted(rule) && !(k.Some? && t[k.value]) {
      var s, v := if Wild(rule) then Stem(rule) else rule, Wild(rule);
      var u := t[s := v];
      assert Prefix(s, rule);
      forall w, k | w in u && u[w] && k in u ensures !ProperPrefix(w, k) {
        if w != s && k == s && ProperPrefix(w, k) {
          PrefixesChain(w, s, rule);
          WildIsLongest(t, w, rule);
        } else if w == s && k != s {
          NothingBelow(t, before, rule, k);
        }
      }
    }
  }

  // ------------------------------------------------------------------ building

  function Build(rules: seq<string>): Tree {
    if rules == [] then map[] else Insert(Build(rules[..|rules| - 1]), rules[|rules| - 1])
  }

  lemma {:induction false} BuildIsBuilt(rules: seq<string>)
    requires Sorted(rules)
    ensures Built(Build(rules), rules)
    ensures (forall r <- rules :: Plain(r)) ==> Flat(Build(rules))
  {
    if rules != [] {
      var init, last := rules[..|rules| - 1], rules[|rules| - 1];
      assert rules == init + [last];
      BuildIsBuilt(init);
      forall r | r in init ensures !Less(last, r) {
        var i :| 0 <= i < |init| && init[i] == r;
        assert rules[i] == r;
      }
      InsertKeeps(Build(init), init, last);
      if forall r <- rules :: Plain(r) {
        InsertKeepsFlat(Build(init), init, last);
      }
    }
  }

  /** The ruleset ignores a path exactly if some rule does, whatever the rules, as long as no
      character in them sorts before the asterisk. */
  lemma RulesetIsRuleList(rules: seq<string>, p: string)
    requires Sorted(rules) && (forall r <- rules :: Plain(r)) && p != ""
    ensures IsIgnored(Build(rules), p) <==> Listed(rules, p)
  {
    BuildIsBuilt(rules);
    FlatAgrees(Build(rules), rules, p);
  }

  lemma BuildTwo(a: string, b: string)
    ensures Build([a, b]) == Insert(Insert(map[], a), b)
  {
    assert [a, b][..1] == [a] && [a][..0] == [];
    assert Build([a]) == Insert(map[], a);
  }

  const HIDING: Tree := map["a!" := false, "a" := true]

  lemma HidingIsBuilt()
    ensures Build(["a!", "a*"]) == HIDING
  {
    BuildTwo("a!", "a*");
    var none: Tree, t: Tree := map[], map["a!" := false];
    assert LongestPrefix(none, "a!").None?;
    assert Insert(map[], "a!") == t;
    assert "a*"[..2] == "a*" && "a*"[..1] == "a" && "a*"[..0] == "";
    assert LongestPrefix(t, "a*").None?;
    hide LongestPrefix;
    assert Insert(t, "a*") == t["a" := true];
  }

  lemma HidingFinds()
    ensures LongestPrefix(HIDING, "a!b") == Some("a!")
  {
    assert "a!b"[..3] == "a!b" && "a!b"[..2] == "a!";
    assert LongestUpTo(HIDING, "a!b", 2) == Some("a!");
  }

  /** With such a character it may not: a! sorts before a* and hides it from a!b. */
  lemma ExclamationHidesWildcard()
    ensures var rules := ["a!", "a*"];
            Sorted(rules) && Listed(rules, "a!b") && !IsIgnored(Build(rules), "a!b")
  {
    HidingIsBuilt();
    HidingFinds();
    hide Build, LongestPrefix;
    assert "a!"[1..] == "!" && "a*"[1..] == "*";
    assert Ignores("a*", "a!b");
  }

  // ------------------------------------------------------------------ and back

  function Rule(t: Tree, k: string): string
    requires k in t
  {
    if t[k] then k + "*" else k
  }

  /** ToSlice, in whatever order the keys are walked. */
  ghost predicate Slice(t: Tree, items: seq<string>) {
    forall r :: r in items <==> exists k :: k in t && k != "" && Rule(t, k) == r
  }

  /** The rules a tree lists ignore what the tree ignores. */
  lemma SliceListsTree(t: Tree, rules: seq<string>, items: seq<string>, p: string)
    requires Built(t, rules) && Flat(t) && Slice(t, items) && p != ""
    ensures Listed(items, p) <==> IsIgnored(t, p)
  {
    FlatDecides(t, p);
    if p in t && !t[p] {
      assert Rule(t, p) == p && Ignores(p, p);
    }
    if w :| w in t && t[w] && Prefix(w, p) {
      assert Rule(t, w) == w + "*" && Stem(w + "*") == w && Ignores(w + "*", p);
    }
    assert p in t && t[p] ==> Prefix(p, p);
    if r :| r in items && Ignores(r, p) {
      var k :| k in t && k != "" && Rule(t, k) == r;
      if t[k] { assert Stem(r) == k; }
    }
  }

  lemma SliceIsPlain(t: Tree, rules: seq<string>, items: seq<string>)
    requires Built(t, rules) && (forall r <- rules :: Plain(r)) && Slice(t, items)
    ensures forall r <- items :: Plain(r)
  {
    forall r | r in items ensures Plain(r) {
      var k :| k in t && k != "" && Rule(t, k) == r;
      assert r in rules;
    }
  }

  /** Rebuilding from ToSlice gives the same decision for every path. */
  lemma RebuildDecidesTheSame(rules: seq<string>, items: seq<string>, p: string)
    requires Sorted(rules) && (forall r <- rules :: Plain(r))
    requires Slice(Build(rules), items) && Sorted(items)
    ensures IsIgnored(Build(items), p) <==> IsIgnored(Build(rules), p)
  {
    if p != "" {
      BuildIsBuilt(rules);
      SliceIsPlain(Build(rules), rules, items);
      SliceListsTree(Build(rules), rules, items, p);
      RulesetIsRuleList(items, p);
    }
  }

  // ------------------------------------------------------------------ rules in any order

  /** What NewIgnoredRuleset makes of a list of rules: it sorts them first. */
  ghost predicate BuiltFrom(t: Tree, ig: seq<string>) {
    exists rules :: Sorted(rules) && multiset(rules) == multiset(ig) && t == Build(rules)
  }

  lemma SameRules(rules: seq<string>, ig: seq<string>, p: string)
    requires multiset(rules) == multiset(ig)
    ensures (forall r <- rules :: Plain(r)) <==> forall r <- ig :: Plain(r)
    ensures Listed(rules, p) <==> Listed(ig, p)
  {
    forall r ensures r in rules <==> r in ig {
      assert r in rules <==> r in multiset(rules);
      assert r in ig <==> r in multiset(ig);
    }
  }

  /** The ruleset made of any list ignores a path exactly if some rule in the list does, if no
      character in the rules sorts before the asterisk. */
  lemma RulesetIsAnyRuleList(t: Tree, ig: seq<string>, p: string)
    requires BuiltFrom(t, ig) && (forall r <- ig :: Plain(r)) && p != ""
    ensures IsIgnored(t, p) <==> Listed(ig, p)
  {
    var rules :| Sorted(rules) && multiset(rules) == multiset(ig) && t == Build(rules);
    SameRules(rules, ig, p);
    RulesetIsRuleList(rules, p);
  }

  /** A ruleset made of what another one lists, in any order, decides every path the same way. */
  lemma RebuildingDecidesTheSame(t: Tree, ig: seq<string>, items: seq<string>, u: Tree, p: string)
    requires BuiltFrom(t, ig) && (forall r <- ig :: Plain(r)) && Slice(t, items) && BuiltFrom(u, items)
    ensures IsIgnored(u, p) <==> IsIgnored(t, p)
  {
    var rules :| Sorted(rules) && multiset(rules) == multiset(ig) && t == Build(rules);
    var again :| Sorted(again) && multiset(again) == multiset(items) && u == Build(again);
    SameRules(rules, ig, p);
    forall r ensures r in again <==> r in items {
      assert r in again <==> r in multiset(again);
      assert r in items <==> r in multiset(items);
    }
    hide Build, IsIgnored, Sorted, Plain, Rule;
    assert Slice(t, again);
    RebuildDecidesTheSame(rules, again, p);
  }

  // ------------------------------------------------------------------ the code

  /** sort.Strings, by insertion. */
  method SortStrings(ig: seq<string>) returns (s: seq<string>)
    ensures Sorted(s) && multiset(s) == multiset(ig)
  {
    s := [];
    for i := 0 to |ig|
      invariant Sorted(s) && multiset(s) == multiset(ig[..i])
    {
      var j := |s|;
      while j > 0 && Less(ig[i], s[j - 1])
        invariant 0 <= j <= |s|
        invariant forall k :: j <= k < |s| ==> Less(ig[i], s[k])
      {
        j := j - 1;
      }
      InsertSorted(s, ig[i], j);
      assert s == s[..j] + s[j..] && ig[..i + 1] == ig[..i] + [ig[i]];
      s := s[..j] + [ig[i]] + s[j..];
    }
    assert ig[..|ig|] == ig;
  }

  lemma InsertSorted(s: seq<string>, x: string, j: nat)
    requires Sorted(s) && j <= |s| && (j > 0 ==> !Less(x, s[j - 1])) && forall k :: j <= k < |s| ==> Less(x, s[k])
    ensures Sorted(s[..j] + [x] + s[j..])
  {
    forall k | 0 <= k < j ensures !Less(x, s[k]) {
      if k < j - 1 { LessTransitive(s[k], s[j - 1], x); }
    }
    forall k | j <= k < |s| ensures !Less(s[k], x) { LessTotal(x, s[k]); }
  }

  class IgnoredRuleset {
    var t: Tree

    constructor (ig: seq<string>)
      ensures BuiltFrom(t, ig)
    {
      t := map[];
      new;
      var rules := SortStrings(ig);
      for i := 0 to |rules|
        invariant t == Build(rules[..i])
      {
        hide LongestPrefix, Sorted;
        var rule := rules[i];
        assert rules[..i + 1][..i] == rules[..i];
        if rule == "*" || rule == "" {
          continue;
        }
        var k := LongestPrefix(t, rule);
        if Wild(rule) {
          if k.Some? && t[k.value] {
            continue;
          }
          t := t[Stem(rule) := true];
        } else if k.None? || !t[k.value] {
          t := t[rule := false];
        }
      }
      assert rules[..|rules|] == rules;
    }

    /** The rules still in effect, in some order. */
    method ToSlice() returns (items: seq<string>)
      ensures Slice(t, items)
    {
      items := [];
      var todo := t.Keys;
      while todo != {}
        invariant todo <= t.Keys
        invariant forall r :: r in items <==> exists k :: k in t && k !in todo && k != "" && Rule(t, k) == r
        decreases |todo|
      {
        var k :| k in todo;
        todo := todo - {k};
        if k != "" {
          items := items + [Rule(t, k)];
        }
      }
    }
  }
}
