/** The key-search engine of indexer/search.go. The regular expressions it
    builds are of two kinds only, so the model names them as a `Pattern`
    instead of a regex string:
    - the source filter `^p1.*|^p2.*|...` over the key-name prefixes of the
      sources that are not excluded, and
    - a search term `(?i)` + optional `^` + the quoted literal + optional `$`,
      which is a literal prefix, suffix, equality or substring test under
      case folding. */
module Search {
  import opened GoStrings
  import Nixpkgs
  import Nixos
  import Homemanager
  import Darwin
  import Nur

  /** A searchable key: `name` is the prefixed name the filters test
      (`nixpkgs/package/hello`), `key` the bare key the ranking measures. */
  datatype Key = Key(name: string, key: string)

  datatype Pattern =
    | SourcePrefixes(prefixes: seq<string>)
    | Term(anchorStart: bool, anchorEnd: bool, literal: string)
    | Uncompilable   // a pattern `regexp.Compile` rejects

  /** A case-insensitive literal with optional anchors. */
  predicate LiteralMatch(anchorStart: bool, anchorEnd: bool, literal: string, name: string) {
    var n := ToLower(name);
    var l := ToLower(literal);
    if anchorStart && anchorEnd then n == l
    else if anchorStart then HasPrefix(n, l)
    else if anchorEnd then HasSuffix(n, l)
    else Contains(n, l)
  }

  /** Whether DeleteNonMatchingItems keeps an item with this name: the pattern
      matches it, or the pattern did not compile (then every item is kept). */
  predicate Keeps(p: Pattern, name: string) {
    match p
    case SourcePrefixes(ps) => exists i :: 0 <= i < |ps| && HasPrefix(name, ps[i])
    case Term(s, e, l) => LiteralMatch(s, e, l, name)
    case Uncompilable => true
  }

  /** The items of `keys` that `p` keeps, in their original order. */
  function Retained(keys: seq<Key>, p: Pattern): seq<Key>
    decreases |keys|
  {
    if keys == [] then []
    else
      var last := keys[|keys| - 1];
      Retained(keys[..|keys| - 1], p) + (if Keeps(p, last.name) then [last] else [])
  }

  /** `a` is `b` with some items left out, the others in the same order. */
  predicate IsSubsequence(a: seq<Key>, b: seq<Key>)
    decreases |b|
  {
    a == [] ||
    (b != [] &&
     ((a[|a| - 1] == b[|b| - 1] && IsSubsequence(a[..|a| - 1], b[..|b| - 1])) ||
      IsSubsequence(a, b[..|b| - 1])))
  }

  /** `DeleteNonMatchingItems`: keeps the items whose name matches; when the
      pattern does not compile, the input comes back unchanged. */
  method DeleteNonMatchingItems(keys: seq<Key>, p: Pattern) returns (filtered: seq<Key>)
    ensures filtered == Retained(keys, p)
    ensures p.Uncompilable? ==> filtered == keys
  {
    if p.Uncompilable? {
      RetainedUncompilable(keys);
      return keys;
    }
    filtered := [];
    for i := 0 to |keys|
      invariant filtered == Retained(keys[..i], p)
    {
      if Keeps(p, keys[i].name) {
        filtered := filtered + [keys[i]];
      }
      assert keys[..i + 1][..i] == keys[..i];
    }
    assert keys[..|keys|] == keys;
  }

  /** DeleteNonMatchingItems only removes items, and keeps the order of
      those it retains. */
  lemma {:induction false} RetainedOrder(keys: seq<Key>, p: Pattern)
    ensures IsSubsequence(Retained(keys, p), keys)
    decreases |keys|
  {
    if keys != [] {
      var init := keys[..|keys| - 1];
      var last := keys[|keys| - 1];
      var ri := Retained(init, p);
      RetainedOrder(init, p);
      var r := Retained(keys, p);
      if Keeps(p, last.name) {
        assert r == ri + [last];
        assert r[..|r| - 1] == ri;
      } else {
        assert r == ri;
      }
    }
  }

  /** DeleteNonMatchingItems keeps every copy of an item it matches and none
      of one it does not. */
  lemma {:induction false} RetainedCount(keys: seq<Key>, p: Pattern, k: Key)
    ensures multiset(Retained(keys, p))[k] == (if Keeps(p, k.name) then multiset(keys)[k] else 0)
    decreases |keys|
  {
    if keys != [] {
      var init := keys[..|keys| - 1];
      var last := keys[|keys| - 1];
      var ri := Retained(init, p);
      RetainedCount(init, p, k);
      assert keys == init + [last];
      assert multiset(keys) == multiset(init) + multiset{last};
      var r := Retained(keys, p);
      if Keeps(p, last.name) {
        assert r == ri + [last];
        assert multiset(r) == multiset(ri) + multiset{last};
      } else {
        assert r == ri;
      }
    }
  }

  /** A pattern that does not compile keeps everything. */
  lemma {:induction false} RetainedUncompilable(keys: seq<Key>)
    ensures Retained(keys, Uncompilable) == keys
    decreases |keys|
  {
    if keys != [] {
      RetainedUncompilable(keys[..|keys| - 1]);
      assert keys == keys[..|keys| - 1] + [keys[|keys| - 1]];
    }
  }

  /** Membership in what DeleteNonMatchingItems keeps. */
  lemma RetainedMembers(keys: seq<Key>, p: Pattern, k: Key)
    ensures k in Retained(keys, p) <==> k in keys && Keeps(p, k.name)
  {
    RetainedCount(keys, p, k);
    assert k in Retained(keys, p) <==> multiset(Retained(keys, p))[k] > 0;
  }

  /** The prefixes of the sources that `exclude` does not name, in the order
      the source filter lists them. */
  function SourcePrefixesFor(exclude: seq<string>): seq<string> {
    (if "nixpkgs" in exclude then [] else [Nixpkgs.Prefix]) +
    (if "nixos" in exclude then [] else [Nixos.Prefix]) +
    (if "homemanager" in exclude then [] else [Homemanager.Prefix]) +
    (if "darwin" in exclude then [] else [Darwin.Prefix]) +
    (if "nur" in exclude then [] else [Nur.Prefix])
  }

  /** The pattern a search term compiles to: one leading `^` anchors the
      start, then one trailing `$` anchors the end, and the rest is quoted. */
  function TermPattern(term: string): Pattern {
    var anchorStart := HasPrefix(term, "^");
    var t := TrimPrefix(term, "^");
    var anchorEnd := HasSuffix(t, "$");
    Term(anchorStart, anchorEnd, TrimSuffix(t, "$"))
  }

  /** The term filters applied one after the other. */
  function ApplyTerms(keys: seq<Key>, terms: seq<string>): seq<Key>
    decreases |terms|
  {
    if terms == [] then keys
    else Retained(ApplyTerms(keys, terms[..|terms| - 1]), TermPattern(terms[|terms| - 1]))
  }

  /** `exclude` names all five sources. */
  predicate AllSourcesExcluded(exclude: seq<string>) {
    "nixpkgs" in exclude && "nixos" in exclude && "homemanager" in exclude &&
    "darwin" in exclude && "nur" in exclude
  }

  /** No source prefix is left exactly when all five sources are excluded. */
  lemma SourcePrefixesEmpty(exclude: seq<string>)
    ensures SourcePrefixesFor(exclude) == [] <==> AllSourcesExcluded(exclude)
  {
    if !AllSourcesExcluded(exclude) {
      assert |SourcePrefixesFor(exclude)| > 0;
    }
  }

  /** The keys a non-empty query selects before ranking. */
  function Selected(keys: seq<Key>, query: string, exclude: seq<string>): seq<Key> {
    if AllSourcesExcluded(exclude) then []
    else ApplyTerms(Retained(keys, SourcePrefixes(SourcePrefixesFor(exclude))), Fields(TrimSpace(query)))
  }

  /** The name starts with the prefix of a source that is not excluded. */
  predicate SourceAllowed(name: string, exclude: seq<string>) {
    Keeps(SourcePrefixes(SourcePrefixesFor(exclude)), name)
  }

  /** A key survives a non-empty query: its source is not excluded and
      every term of the query matches its name. */
  predicate Admitted(k: Key, query: string, exclude: seq<string>) {
    SourceAllowed(k.name, exclude) &&
    AllTermsKeep(Fields(TrimSpace(query)), k.name)
  }

  /** Every term of the list matches the name. */
  predicate AllTermsKeep(terms: seq<string>, name: string)
    decreases |terms|
  {
    terms == [] ||
    (AllTermsKeep(terms[..|terms| - 1], name) && Keeps(TermPattern(terms[|terms| - 1]), name))
  }

  /** AllTermsKeep is "every term matches". */
  lemma {:induction false} AllTermsKeepIff(terms: seq<string>, name: string)
    ensures AllTermsKeep(terms, name) <==> forall t :: t in terms ==> Keeps(TermPattern(t), name)
    decreases |terms|
  {
    if terms != [] {
      var init := terms[..|terms| - 1];
      AllTermsKeepIff(init, name);
      assert terms == init + [terms[|terms| - 1]];
    }
  }

  lemma {:induction false} ApplyTermsCount(keys: seq<Key>, terms: seq<string>, k: Key)
    ensures multiset(ApplyTerms(keys, terms))[k] == (if AllTermsKeep(terms, k.name) then multiset(keys)[k] else 0)
    decreases |terms|
  {
    if terms != [] {
      var init := terms[..|terms| - 1];
      var last := terms[|terms| - 1];
      ApplyTermsCount(keys, init, k);
      RetainedCount(ApplyTerms(keys, init), TermPattern(last), k);
    }
  }

  /** Search keeps exactly the admitted keys, every copy of each, and
      invents none. */
  lemma SelectedCounts(keys: seq<Key>, query: string, exclude: seq<string>)
    ensures forall k ::
      multiset(Selected(keys, query, exclude))[k] == (if Admitted(k, query, exclude) then multiset(keys)[k] else 0)
    ensures multiset(Selected(keys, query, exclude)) <= multiset(keys)
  {
    forall k
      ensures multiset(Selected(keys, query, exclude))[k] == (if Admitted(k, query, exclude) then multiset(keys)[k] else 0)
    {
      SelectedCount(keys, query, exclude, k);
    }
  }

  lemma SelectedCount(keys: seq<Key>, query: string, exclude: seq<string>, k: Key)
    ensures multiset(Selected(keys, query, exclude))[k] == (if Admitted(k, query, exclude) then multiset(keys)[k] else 0)
  {
    if AllSourcesExcluded(exclude) {
      NothingAdmitted(query, exclude, k);
    } else {
      SelectedCountSome(keys, query, exclude, k);
    }
  }

  /** With every source excluded no key passes the source filter. */
  lemma NothingAdmitted(query: string, exclude: seq<string>, k: Key)
    requires AllSourcesExcluded(exclude)
    ensures !Admitted(k, query, exclude)
  {
    SourcePrefixesEmpty(exclude);
    assert !Keeps(SourcePrefixes([]), k.name);
  }

  /** The per-key count when some source is left: the source filter and then
      the term filters each keep all copies of a key or none. */
  lemma SelectedCountSome(keys: seq<Key>, query: string, exclude: seq<string>, k: Key)
    requires !AllSourcesExcluded(exclude)
    ensures multiset(Selected(keys, query, exclude))[k] == (if Admitted(k, query, exclude) then multiset(keys)[k] else 0)
  {
    var prefixes := SourcePrefixesFor(exclude);
    var terms := Fields(TrimSpace(query));
    var bySource := Retained(keys, SourcePrefixes(prefixes));
    assert Selected(keys, query, exclude) == ApplyTerms(bySource, terms);
    RetainedCount(keys, SourcePrefixes(prefixes), k);
    ApplyTermsCount(bySource, terms, k);
  }

  /** The source filter, source by source. The exclusion names are those of
      the code: `homemanager` (not `home-manager`) and `nixos` for the
      `nixpkgs/option/` names. */
  lemma SourceAllowedIff(name: string, exclude: seq<string>)
    ensures SourceAllowed(name, exclude) <==>
      ("nixpkgs" !in exclude && HasPrefix(name, Nixpkgs.Prefix)) ||
      ("nixos" !in exclude && HasPrefix(name, Nixos.Prefix)) ||
      ("homemanager" !in exclude && HasPrefix(name, Homemanager.Prefix)) ||
      ("darwin" !in exclude && HasPrefix(name, Darwin.Prefix)) ||
      ("nur" !in exclude && HasPrefix(name, Nur.Prefix))
  {
    var ps := SourcePrefixesFor(exclude);
    if SourceAllowed(name, exclude) {
      var i :| 0 <= i < |ps| && HasPrefix(name, ps[i]);
      assert ps[i] in ps;
    } else {
      forall p | p in ps ensures !HasPrefix(name, p) {
        var i :| 0 <= i < |ps| && ps[i] == p;
      }
    }
  }

  /** Two prefixes that both start a name agree wherever both are defined. */
  lemma PrefixesAgree(name: string, a: string, b: string, i: nat)
    requires i < |a| && i < |b|
    ensures HasPrefix(name, a) && HasPrefix(name, b) ==> a[i] == b[i]
  {
    if HasPrefix(name, a) && HasPrefix(name, b) {
      assert name[..|a|][i] == name[i];
      assert name[..|b|][i] == name[i];
    }
  }

  /** The names every source filter admits: those of the five sources. */
  predicate KnownSource(name: string) {
    SourceAllowed(name, [])
  }

  /** Excluding `nixpkgs` drops the package names only; the NixOS option
      names, which share the `nixpkgs/` start, stay. */
  lemma ExcludeNixpkgs(name: string)
    ensures SourceAllowed(name, ["nixpkgs"]) <==> KnownSource(name) && !HasPrefix(name, Nixpkgs.Prefix)
  {
    SourceAllowedIff(name, ["nixpkgs"]);
    SourceAllowedIff(name, []);
    if HasPrefix(name, Nixpkgs.Prefix) {
      PrefixesAgree(name, Nixpkgs.Prefix, Nixos.Prefix, 8);
      PrefixesAgree(name, Nixpkgs.Prefix, Homemanager.Prefix, 0);
      PrefixesAgree(name, Nixpkgs.Prefix, Darwin.Prefix, 0);
      PrefixesAgree(name, Nixpkgs.Prefix, Nur.Prefix, 1);
    }
  }

  /** Excluding `nixos` drops the `nixpkgs/option/` names only. */
  lemma ExcludeNixos(name: string)
    ensures SourceAllowed(name, ["nixos"]) <==> KnownSource(name) && !HasPrefix(name, Nixos.Prefix)
  {
    SourceAllowedIff(name, ["nixos"]);
    SourceAllowedIff(name, []);
    if HasPrefix(name, Nixos.Prefix) {
      PrefixesAgree(name, Nixos.Prefix, Nixpkgs.Prefix, 8);
      PrefixesAgree(name, Nixos.Prefix, Homemanager.Prefix, 0);
      PrefixesAgree(name, Nixos.Prefix, Darwin.Prefix, 0);
      PrefixesAgree(name, Nixos.Prefix, Nur.Prefix, 1);
    }
  }

  /** The exclusion name for Home Manager is `homemanager`: excluding
      `home-manager` excludes nothing. */
  lemma ExcludeHomeManagerSpelling(name: string)
    ensures SourceAllowed(name, ["home-manager"]) <==> KnownSource(name)
    ensures SourceAllowed(name, ["homemanager"]) <==> KnownSource(name) && !HasPrefix(name, Homemanager.Prefix)
  {
    SourceAllowedIff(name, ["home-manager"]);
    SourceAllowedIff(name, ["homemanager"]);
    SourceAllowedIff(name, []);
    if HasPrefix(name, Homemanager.Prefix) {
      PrefixesAgree(name, Homemanager.Prefix, Nixpkgs.Prefix, 0);
      PrefixesAgree(name, Homemanager.Prefix, Nixos.Prefix, 0);
      PrefixesAgree(name, Homemanager.Prefix, Darwin.Prefix, 0);
      PrefixesAgree(name, Homemanager.Prefix, Nur.Prefix, 0);
    }
  }

  /** Excluding all five sources leaves nothing to search. */
  lemma AllExcluded(keys: seq<Key>, query: string, exclude: seq<string>)
    requires "nixpkgs" in exclude && "nixos" in exclude && "homemanager" in exclude
    requires "darwin" in exclude && "nur" in exclude
    ensures SourcePrefixesFor(exclude) == [] && Selected(keys, query, exclude) == []
    ensures forall k :: !Admitted(k, query, exclude)
  {
    SourcePrefixesEmpty(exclude);
    forall k ensures !Admitted(k, query, exclude) {
      NothingAdmitted(query, exclude, k);
    }
  }

  /** The anchors of a term, for a word `w` that carries none itself: `^w`
      is a prefix test, `w$` a suffix test, `^w$` an equality test and `w`
      a substring test, all on lower-cased text. */
  lemma TermAnchors(w: string, name: string)
    requires !HasPrefix(w, "^") && !HasSuffix(w, "$")
    ensures Keeps(TermPattern("^" + w), name) <==> HasPrefix(ToLower(name), ToLower(w))
    ensures Keeps(TermPattern(w + "$"), name) <==> HasSuffix(ToLower(name), ToLower(w))
    ensures Keeps(TermPattern("^" + w + "$"), name) <==> ToLower(name) == ToLower(w)
    ensures Keeps(TermPattern(w), name) <==> Contains(ToLower(name), ToLower(w))
  {
    assert ("^" + w)[1..] == w;
    assert (w + "$")[..|w|] == w;
    assert ("^" + w + "$")[1..] == w + "$";
    if w != [] {
      assert (w + "$")[0] == w[0];
      assert ("^" + w)[|"^" + w| - 1..] == w[|w| - 1..];
    }
  }

  /** A lone `^` or `$` is the empty literal and keeps every name; `^$`
      keeps only the empty name. The three terms are parameters pinned by
      the precondition, which keeps the verifier from unfolding the
      literals character by character. */
  lemma BareAnchors(name: string, caret: string, dollar: string, both: string)
    requires caret == "^" && dollar == "$" && both == "^$"
    ensures Keeps(TermPattern(caret), name) && Keeps(TermPattern(dollar), name)
    ensures Keeps(TermPattern(both), name) <==> name == []
  {
    AnchorPatterns(caret, dollar, both);
    assert |ToLower(name)| == |name|;
  }

  /** How the three bare-anchor terms parse (the terms pinned as in
      BareAnchors). */
  lemma AnchorPatterns(caret: string, dollar: string, both: string)
    requires caret == "^" && dollar == "$" && both == "^$"
    ensures TermPattern(caret) == Term(true, false, [])
    ensures TermPattern(dollar) == Term(false, true, [])
    ensures TermPattern(both) == Term(true, true, [])
  {
    assert caret[..1] == caret;
    assert dollar[..1][0] != caret[0];
    assert both[..1] == caret;
  }

  // ---------------------------------------------------------------------
  // Ranking.

  /** The length the ranking compares: the byte length (Go's `len`) of the
      key without one leading `services.` and then without one leading
      `programs.`. */
  function SortLen(k: Key): nat {
    ByteLen(TrimPrefix(TrimPrefix(k.key, "services."), "programs."))
  }

  /** Ascending by `rank`. */
  predicate SortedBy(s: seq<Key>, rank: Key -> nat) {
    forall i, j :: 0 <= i < j < |s| ==> rank(s[i]) <= rank(s[j])
  }

  predicate SortedByLen(s: seq<Key>) {
    SortedBy(s, SortLen)
  }

  /** The position of a key of least rank in `a[from..]`. */
  method MinFrom(a: array<Key>, from: nat, rank: Key -> nat) returns (m: nat)
    requires from < a.Length
    ensures from <= m < a.Length
    ensures forall y :: from <= y < a.Length ==> rank(a[m]) <= rank(a[y])
  {
    m := from;
    for j := from + 1 to a.Length
      invariant from <= m < a.Length
      invariant forall y :: from <= y < j ==> rank(a[m]) <= rank(a[y])
    {
      if rank(a[j]) < rank(a[m]) {
        m := j;
      }
    }
  }

  /** The first `i` keys are in rank order. */
  predicate SortedPrefix(s: seq<Key>, i: nat, rank: Key -> nat) {
    forall x, y :: 0 <= x < y < i && y < |s| ==> rank(s[x]) <= rank(s[y])
  }

  /** No key among the first `i` outranks a later one. */
  predicate Partitioned(s: seq<Key>, i: nat, rank: Key -> nat) {
    forall x, y :: 0 <= x < i <= y < |s| ==> rank(s[x]) <= rank(s[y])
  }

  /** One selection step: swapping a least key of `s[i..]` into place `i`
      extends the sorted prefix and keeps the partition and the multiset. */
  lemma SelectionStep(s: seq<Key>, i: nat, m: nat, rank: Key -> nat)
    requires i <= m < |s|
    requires SortedPrefix(s, i, rank) && Partitioned(s, i, rank)
    requires forall y :: i <= y < |s| ==> rank(s[m]) <= rank(s[y])
    ensures SortedPrefix(s[i := s[m]][m := s[i]], i + 1, rank)
    ensures Partitioned(s[i := s[m]][m := s[i]], i + 1, rank)
    ensures multiset(s[i := s[m]][m := s[i]]) == multiset(s)
  {
    var t := s[i := s[m]][m := s[i]];
    forall y | i < y < |t| ensures rank(t[i]) <= rank(t[y]) {
      assert t[y] == s[y] || t[y] == s[i];
    }
  }

  /** `slices.SortFunc` with a comparator that orders by `rank`. The order
      among keys of equal rank is left open, as Go's unstable sort leaves
      it. */
  method SortBy(a: array<Key>, rank: Key -> nat)
    modifies a
    ensures SortedBy(a[..], rank)
    ensures multiset(a[..]) == old(multiset(a[..]))
  {
    for i := 0 to a.Length
      invariant SortedPrefix(a[..], i, rank) && Partitioned(a[..], i, rank)
      invariant multiset(a[..]) == old(multiset(a[..]))
    {
      var m := MinFrom(a, i, rank);
      ghost var s := a[..];
      a[i], a[m] := a[m], a[i];
      assert a[..] == s[i := s[m]][m := s[i]];
      SelectionStep(s, i, m, rank);
    }
    assert SortedPrefix(a[..], a.Length, rank);
  }

  /** The ranking trims one leading `services.` and then one leading
      `programs.`, in that order, and nothing else: `programs.` after
      `services.` is trimmed, `services.` after `programs.` is not. */
  lemma SortLenTrims(n: string, rest: string)
    ensures !HasPrefix(rest, "programs.") ==> SortLen(Key(n, "services." + rest)) == ByteLen(rest)
    ensures SortLen(Key(n, "services.programs." + rest)) == ByteLen(rest)
    ensures SortLen(Key(n, "programs." + rest)) == ByteLen(rest)
    ensures !HasPrefix(rest, "services.") && !HasPrefix(rest, "programs.") ==> SortLen(Key(n, rest)) == ByteLen(rest)
  {
    var s := "services." + rest;
    assert s[..9] == "services." && s[9..] == rest;
    var sp := "services.programs." + rest;
    assert sp[..9] == "services." && sp[9..] == "programs." + rest;
    var p := "programs." + rest;
    assert p[..9] == "programs." && p[9..] == rest;
    assert p[0] != "services."[0];
  }

  /** The ranking counts bytes, not characters: `éé` (four bytes) ranks
      after `abc` (three bytes) although it has fewer characters. */
  lemma SortLenCountsBytes(n: string, a: string, b: string)
    requires a == "abc" && b == "\U{E9}\U{E9}"
    ensures SortLen(Key(n, a)) == 3 && SortLen(Key(n, b)) == 4
    ensures SortedByLen([Key(n, a), Key(n, b)]) && !SortedByLen([Key(n, b), Key(n, a)])
  {
    assert a[0] != "services."[0] && a[0] != "programs."[0];
    assert b[0] != "services."[0] && b[0] != "programs."[0];
    assert ByteLen(a) == 3 by {
      AsciiByteLen(a);
    }
    assert ByteLen(b) == 4 by {
      assert b[1..][1..] == [];
    }
    var s := [Key(n, b), Key(n, a)];
    assert SortLen(s[0]) > SortLen(s[1]);
  }

  // ---------------------------------------------------------------------
  // The search.

  /** `Keys.Search`. A query that trims to nothing returns the keys as they
      are. Otherwise the result holds exactly the admitted keys, with their
      multiplicities, ranked by SortLen; with every source excluded it is
      empty. */
  method Search(keys: seq<Key>, query: string, exclude: seq<string>) returns (results: seq<Key>)
    ensures TrimSpace(query) == [] ==> results == keys
    ensures TrimSpace(query) != [] ==>
      SortedByLen(results) && multiset(results) == multiset(Selected(keys, query, exclude))
    ensures TrimSpace(query) != [] && AllSourcesExcluded(exclude) ==> results == []
  {
    var q := TrimSpace(query);
    if q == [] {
      return keys;
    }
    var patterns := SourcePatterns(exclude);
    SourcePrefixesEmpty(exclude);
    if |patterns| > 0 {
      results := DeleteNonMatchingItems(keys, SourcePrefixes(patterns));
    } else {
      return [];
    }
    results := FilterTerms(results, Fields(q));
    ghost var sel := results;
    assert sel == Selected(keys, query, exclude);
    results := Rank(results);
  }

  /** The ranking step: the selected keys, copied into an array and sorted
      there. */
  method Rank(keys: seq<Key>) returns (ranked: seq<Key>)
    ensures SortedByLen(ranked) && multiset(ranked) == multiset(keys)
  {
    var a := new Key[|keys|](j requires 0 <= j < |keys| => keys[j]);
    assert a[..] == keys;
    SortBy(a, SortLen);
    ranked := a[..];
  }

  /** The prefixes of the sources `exclude` leaves in, in order. */
  method SourcePatterns(exclude: seq<string>) returns (patterns: seq<string>)
    ensures patterns == SourcePrefixesFor(exclude)
  {
    patterns := [];
    if "nixpkgs" !in exclude {
      patterns := patterns + [Nixpkgs.Prefix];
    }
    if "nixos" !in exclude {
      patterns := patterns + [Nixos.Prefix];
    }
    if "homemanager" !in exclude {
      patterns := patterns + [Homemanager.Prefix];
    }
    if "darwin" !in exclude {
      patterns := patterns + [Darwin.Prefix];
    }
    if "nur" !in exclude {
      patterns := patterns + [Nur.Prefix];
    }
  }

  /** The loop over the query's terms: each term is compiled with its
      anchors and the keys are narrowed to those it matches. */
  method FilterTerms(keys: seq<Key>, terms: seq<string>) returns (results: seq<Key>)
    ensures results == ApplyTerms(keys, terms)
  {
    results := keys;
    for i := 0 to |terms|
      invariant results == ApplyTerms(keys, terms[..i])
    {
      var term := terms[i];
      var anchorStart, anchorEnd := false, false;
      if HasPrefix(term, "^") {
        term := TrimPrefix(term, "^");
        anchorStart := true;
      }
      if HasSuffix(term, "$") {
        term := TrimSuffix(term, "$");
        anchorEnd := true;
      }
      assert Term(anchorStart, anchorEnd, term) == TermPattern(terms[i]);
      results := DeleteNonMatchingItems(results, Term(anchorStart, anchorEnd, term));
      assert terms[..i + 1][..i] == terms[..i];
    }
    assert terms[..|terms|] == terms;
  }
}
