/** Rendering targets with Ref.String and parsing them again; unpaired namespaces. */
module TargetLaws {
  import opened Ordering
  import opened Kube
  import opened Targets

  function Strings(refs: seq<Ref>): (r: seq<string>)
    ensures |r| == |refs| && forall i :: 0 <= i < |r| ==> r[i] == RefString(refs[i])
  {
    if refs == [] then [] else Strings(refs[..|refs| - 1]) + [RefString(refs[|refs| - 1])]
  }

  /** The comma list of the rendered targets. */
  function Render(refs: seq<Ref>): string {
    Join(Strings(refs), ',')
  }

  /** A default namespace that can be written in front of a slash and read back. */
  predicate Writable(ns: string) {
    ',' !in ns && '/' !in ns && (ns != "" ==> !IsSpace(ns[0]))
  }

  // ----- splitting and trimming -----

  lemma {:induction false} SplitParts(s: string, sep: char)
    ensures forall k :: 0 <= k < |Split(s, sep)| ==> sep !in Split(s, sep)[k]
  {
    if s != "" {
      SplitParts(s[1..], sep);
    }
  }

  lemma {:induction false} SplitNoSep(s: string, sep: char)
    requires sep !in s
    ensures Split(s, sep) == [s]
  {
    if s != "" {
      assert s == [s[0]] + s[1..];
      SplitNoSep(s[1..], sep);
    }
  }

  lemma {:induction false} SplitAtSep(a: string, sep: char, b: string)
    requires sep !in a
    ensures Split(a + [sep] + b, sep) == [a] + Split(b, sep)
  {
    var s := a + [sep] + b;
    if a == "" {
      assert s[1..] == b;
    } else {
      assert s[1..] == a[1..] + [sep] + b;
      assert a == [a[0]] + a[1..];
      SplitAtSep(a[1..], sep, b);
    }
  }

  lemma {:induction false} SplitJoin(parts: seq<string>, sep: char)
    requires parts != [] && forall k :: 0 <= k < |parts| ==> sep !in parts[k]
    ensures Split(Join(parts, sep), sep) == parts
  {
    if |parts| == 1 {
      SplitNoSep(parts[0], sep);
    } else {
      SplitJoin(parts[1..], sep);
      SplitAtSep(parts[0], sep, Join(parts[1..], sep));
    }
  }

  lemma {:induction false} SplitLast(s: string, t: string, sep: char)
    requires sep !in t
    ensures LastOf(Split(s + t, sep)) == LastOf(Split(s, sep)) + t
    decreases |s|
  {
    var i := IndexOf(s, sep);
    if i == |s| {
      SplitNoSep(s, sep);
      SplitNoSep(s + t, sep);
    } else {
      var a, b := s[..i], s[i + 1..];
      assert s == a + [sep] + b && s + t == a + [sep] + (b + t);
      SplitAtSep(a, sep, b);
      SplitAtSep(a, sep, b + t);
      SplitLast(b, t, sep);
    }
  }

  function LastOf(parts: seq<string>): string
    requires parts != []
  {
    parts[|parts| - 1]
  }

  lemma {:induction false} TrimLeftEnds(s: string)
    ensures TrimLeft(s) != "" ==> !IsSpace(TrimLeft(s)[0])
    ensures forall c :: c in TrimLeft(s) ==> c in s
    ensures |TrimLeft(s)| <= |s|
  {
    if s != "" && IsSpace(s[0]) {
      TrimLeftEnds(s[1..]);
    }
  }

  lemma {:induction false} TrimRightEnds(s: string)
    ensures TrimRight(s) <= s
    ensures TrimRight(s) != "" ==> !IsSpace(TrimRight(s)[|TrimRight(s)| - 1])
  {
    if s != "" && IsSpace(s[|s| - 1]) {
      TrimRightEnds(s[..|s| - 1]);
    }
  }

  lemma TrimEnds(s: string)
    ensures var t := Trim(s); t != "" ==> !IsSpace(t[0]) && !IsSpace(t[|t| - 1])
    ensures forall c :: c in Trim(s) ==> c in s
  {
    TrimLeftEnds(s);
    TrimRightEnds(TrimLeft(s));
  }

  lemma Trimmed(s: string)
    requires s != "" ==> !IsSpace(s[0]) && !IsSpace(s[|s| - 1])
    ensures Trim(s) == s
  {
  }

  // ----- the round trip -----

  /** A target whose rendering reads back as itself. */
  predicate Printable(r: Ref) {
    && r.ns != "" && r.name != "" && ',' !in r.ns && ',' !in r.name && '/' !in r.ns && '/' !in r.name
    && !IsSpace(r.ns[0]) && !IsSpace(r.name[|r.name| - 1])
  }

  lemma PrintableReadsBack(r: Ref, defaultNS: string)
    requires Printable(r)
    ensures Trim(RefString(r)) == RefString(r) && NamePair(RefString(r), defaultNS) == r && ',' !in RefString(r)
  {
    var s := RefString(r);
    assert s[0] == r.ns[0] && s[|s| - 1] == r.name[|r.name| - 1];
    Trimmed(s);
    assert s[|r.ns|] == '/' && s[..|r.ns|] == r.ns && s[|r.ns| + 1..] == r.name;
    var i := IndexOf(s, '/');
    assert forall k :: 0 <= k < i ==> s[k] == s[..i][k];
    assert forall k :: 0 <= k < |r.ns| ==> s[k] == r.ns[k];
  }

  lemma EntryPrintable(raw: string, defaultNS: string)
    requires Writable(defaultNS) && ',' !in raw && Trim(raw) != "" && Complete(NamePair(Trim(raw), defaultNS))
    ensures Printable(NamePair(Trim(raw), defaultNS))
  {
    TrimEnds(raw);
    var e := Trim(raw);
    var i := IndexOf(e, '/');
    if i < |e| {
      assert forall c :: c in e[..i] ==> c in e;
      assert forall c :: c in e[i + 1..] ==> c in e;
    }
  }

  lemma {:induction false} OutputPrintable(entries: seq<string>, defaultNS: string)
    requires Writable(defaultNS) && forall k :: 0 <= k < |entries| ==> ',' !in entries[k]
    requires ParseEntries(entries, defaultNS).Refs?
    ensures forall r :: r in ParseEntries(entries, defaultNS).refs ==> Printable(r)
  {
    if entries != [] {
      var init, raw := entries[..|entries| - 1], entries[|entries| - 1];
      OutputPrintable(init, defaultNS);
      if Trim(raw) != "" {
        EntryPrintable(raw, defaultNS);
      }
    }
  }

  lemma ParseOnePrintable(refs: seq<Ref>, r: Ref, defaultNS: string)
    requires Printable(r) && r !in refs
    ensures ParseOne(Refs(refs), RefString(r), defaultNS) == Refs(refs + [r])
  {
    PrintableReadsBack(r, defaultNS);
  }

  lemma StringsStep(refs: seq<Ref>, r: Ref)
    ensures Strings(refs + [r]) == Strings(refs) + [RefString(r)]
  {
    assert (refs + [r])[..|refs|] == refs;
  }

  lemma AppendParses(init: seq<Ref>, r: Ref, defaultNS: string)
    requires Printable(r) && r !in init && ParseEntries(Strings(init), defaultNS) == Refs(init)
    ensures ParseEntries(Strings(init + [r]), defaultNS) == Refs(init + [r])
  {
    StringsStep(init, r);
    ParseEntriesStep(Strings(init), RefString(r), defaultNS);
    ParseOnePrintable(init, r, defaultNS);
  }

  lemma {:induction false} StringsParse(refs: seq<Ref>, defaultNS: string)
    requires Distinct(refs) && forall k :: 0 <= k < |refs| ==> Printable(refs[k])
    ensures ParseEntries(Strings(refs), defaultNS) == Refs(refs)
  {
    if refs != [] {
      var init, r := refs[..|refs| - 1], refs[|refs| - 1];
      StringsParse(init, defaultNS);
      assert refs == init + [r];
      AppendParses(init, r, defaultNS);
    }
  }

  /** Under a writable default namespace, the rendered list parses to the same targets. */
  lemma RenderThenParse(list: string, defaultNS: string)
    requires Writable(defaultNS) && Parse(list, defaultNS).Refs?
    ensures Parse(Render(Parse(list, defaultNS).refs), defaultNS) == Parse(list, defaultNS)
  {
    var entries, refs := Split(list, ','), Parse(list, defaultNS).refs;
    SplitParts(list, ',');
    OutputPrintable(entries, defaultNS);
    ParsedAreTargets(list, defaultNS);
    if refs == [] {
      assert Split("", ',') == [""];
    } else {
      forall k | 0 <= k < |refs| ensures ',' !in Strings(refs)[k] {
        PrintableReadsBack(refs[k], defaultNS);
      }
      SplitJoin(Strings(refs), ',');
    }
    StringsParse(refs, defaultNS);
  }

  lemma ParseX(defaultNS: string)
    requires defaultNS != ""
    ensures Parse("x", defaultNS) == Refs([Ref(defaultNS, "x")])
    ensures Render([Ref(defaultNS, "x")]) == defaultNS + "/x"
  {
    SplitNoSep("x", ',');
    Trimmed("x");
    assert ParseEntries(["x"][..0], defaultNS) == Refs([]);
    assert NamePair("x", defaultNS) == Ref(defaultNS, "x");
    assert ParseEntries(["x"], defaultNS) == ParseOne(Refs([]), "x", defaultNS);
    assert [] + [Ref(defaultNS, "x")] == [Ref(defaultNS, "x")];
    assert Strings([Ref(defaultNS, "x")]) == [defaultNS + "/x"] by {
      assert RefString(Ref(defaultNS, "x")) == defaultNS + "/x";
    }
  }

  lemma {:induction false} TrimLeftSuffix(d: string)
    ensures Trim(d + "/x") == TrimLeft(d) + "/x"
    ensures '/' in d ==> '/' in TrimLeft(d)
    ensures d != "" && IsSpace(d[0]) ==> |TrimLeft(d)| < |d|
  {
    TrimLeftTo(d);
    var t := TrimLeft(d) + "/x";
    assert t[|t| - 1] == 'x';
    TrimLeftEnds(d[if d == "" then 0 else 1..]);
  }

  lemma {:induction false} TrimLeftTo(d: string)
    ensures TrimLeft(d + "/x") == TrimLeft(d) + "/x"
    ensures '/' in d ==> '/' in TrimLeft(d)
  {
    if d == "" {
      assert d + "/x" == "/x";
    } else if IsSpace(d[0]) {
      assert (d + "/x")[1..] == d[1..] + "/x";
      assert d == [d[0]] + d[1..];
      TrimLeftTo(d[1..]);
    }
  }

  lemma OutputFromLast(entries: seq<string>, defaultNS: string)
    requires entries != [] && ParseEntries(entries, defaultNS).Refs? && Trim(LastOf(entries)) != ""
    ensures NamePair(Trim(LastOf(entries)), defaultNS) in ParseEntries(entries, defaultNS).refs
    ensures Complete(NamePair(Trim(LastOf(entries)), defaultNS))
  {
  }

  lemma SlashX(left: string, defaultNS: string)
    requires Complete(NamePair(left + "/x", defaultNS))
    ensures NamePair(left + "/x", defaultNS) == Ref(left, "x") && '/' !in left
  {
    var e := left + "/x";
    assert e[|left|] == '/';
    LastPart(e, left, IndexOf(e, '/'));
    assert e[|left| + 1..] == "x";
  }

  /** If `d + "/x"` parses at all, a target comes from what stands between its last comma
      and the slash, trimmed on the left; that part then holds no slash. */
  lemma LastTarget(d: string)
    requires Parse(d + "/x", d).Refs?
    ensures var left := TrimLeft(LastOf(Split(d, ','))); Ref(left, "x") in Parse(d + "/x", d).refs && '/' !in left
  {
    var head := LastOf(Split(d, ','));
    SplitLast(d, "/x", ',');
    TrimLeftSuffix(head);
    OutputFromLast(Split(d + "/x", ','), d);
    SlashX(TrimLeft(head), d);
  }

  lemma UnwritablePart(d: string)
    requires !Writable(d)
    ensures var left := TrimLeft(LastOf(Split(d, ','))); '/' in left || left != d
  {
    SplitParts(d, ',');
    TrimLeftEnds(LastOf(Split(d, ',')));
    if ',' !in d {
      SplitNoSep(d, ',');
      TrimLeftSuffix(d);
    }
  }

  /** The counterexample for any other default namespace: the bare name "x". */
  lemma BareNameDoesNotReadBack(defaultNS: string)
    requires !Writable(defaultNS)
    ensures Parse("x", defaultNS) == Refs([Ref(defaultNS, "x")])
    ensures Parse(Render([Ref(defaultNS, "x")]), defaultNS) != Parse("x", defaultNS)
  {
    ParseX(defaultNS);
    UnwritablePart(defaultNS);
    if Parse(defaultNS + "/x", defaultNS).Refs? {
      LastTarget(defaultNS);
    }
  }

  lemma LastPart(e: string, left: string, i: nat)
    requires e == left + "/x" && i == IndexOf(e, '/') && '/' !in e[i + 1..]
    ensures i == |left| && e[..i] == left && '/' !in left
  {
    assert e[|left|] == '/';
    assert forall k :: i < k < |e| ==> e[k] == e[i + 1..][k - i - 1];
    assert forall k :: 0 <= k < |left| ==> left[k] == e[k];
    assert forall k :: 0 <= k < i ==> e[k] == e[..i][k];
  }

  /** Rendering and parsing again gives the same targets for every list exactly when the
      default namespace holds no comma and no slash and does not start with white space. */
  lemma RoundTripIff(defaultNS: string)
    ensures Writable(defaultNS) <==>
      forall list :: Parse(list, defaultNS).Refs? ==>
        Parse(Render(Parse(list, defaultNS).refs), defaultNS) == Parse(list, defaultNS)
  {
    if Writable(defaultNS) {
      forall list | Parse(list, defaultNS).Refs?
        ensures Parse(Render(Parse(list, defaultNS).refs), defaultNS) == Parse(list, defaultNS)
      {
        RenderThenParse(list, defaultNS);
      }
    } else {
      BareNameDoesNotReadBack(defaultNS);
      assert Parse("x", defaultNS).Refs?;
    }
  }

  // ----- unpaired namespaces -----

  function NamespacesOf(refs: seq<Ref>): set<string> {
    set r | r in refs :: r.ns
  }

  lemma NamespacesStep(refs: seq<Ref>, i: nat)
    requires i < |refs|
    ensures NamespacesOf(refs[..i + 1]) == NamespacesOf(refs[..i]) + {refs[i].ns}
  {
    assert refs[..i + 1] == refs[..i] + [refs[i]];
    assert refs[i] in refs[..i + 1];
  }

  /** The strictly sorted namespaces of Deployments that have no ConfigMap target. */
  method UnpairedNamespaces(configMaps: seq<Ref>, deployments: seq<Ref>) returns (out: seq<string>)
    ensures out == Listing(NamespacesOf(deployments) - NamespacesOf(configMaps))
  {
    var hasConfigMap: set<string> := {};
    for i := 0 to |configMaps|
      invariant hasConfigMap == NamespacesOf(configMaps[..i])
    {
      NamespacesStep(configMaps, i);
      hasConfigMap := hasConfigMap + {configMaps[i].ns};
    }
    assert configMaps[..|configMaps|] == configMaps;
    var seen: set<string> := {};
    out := [];
    for i := 0 to |deployments|
      invariant seen == NamespacesOf(deployments[..i]) - hasConfigMap
      invariant multiset(out) == multiset(seen)
    {
      NamespacesStep(deployments, i);
      var ns := deployments[i].ns;
      if ns in hasConfigMap || ns in seen {
        continue;
      }
      seen := seen + {ns};
      out := out + [ns];
    }
    assert deployments[..|deployments|] == deployments;
    out := Sort(out);
    SortedUnique(out, Listing(seen));
  }

  /** What the listing says: each namespace with a Deployment target and no ConfigMap
      target, once, in increasing order. */
  lemma UnpairedMeans(configMaps: seq<Ref>, deployments: seq<Ref>)
    ensures var out := Listing(NamespacesOf(deployments) - NamespacesOf(configMaps));
      && Sorted(out) && Distinct(out)
      && forall ns :: ns in out <==>
           (exists d :: d in deployments && d.ns == ns) && !(exists r :: r in configMaps && r.ns == ns)
  {
    ListingDistinct(NamespacesOf(deployments) - NamespacesOf(configMaps));
  }

  // ----- the string functions, by what they mean -----

  /** The characters that are trimmed, one by one. */
  lemma SpacesAre(c: char)
    ensures IsSpace(c) <==> c in {
      '\t', '\n', '\U{B}', '\U{C}', '\r', ' ', '\U{85}', '\U{A0}', '\U{1680}',
      '\U{2000}', '\U{2001}', '\U{2002}', '\U{2003}', '\U{2004}', '\U{2005}', '\U{2006}', '\U{2007}',
      '\U{2008}', '\U{2009}', '\U{200A}', '\U{2028}', '\U{2029}', '\U{202F}', '\U{205F}', '\U{3000}'}
  {
  }

  predicate AllSpace(s: string) {
    forall c :: c in s ==> IsSpace(c)
  }

  lemma {:induction false} TrimLeftDrops(l: string, t: string)
    requires AllSpace(l) && (t != "" ==> !IsSpace(t[0]))
    ensures TrimLeft(l + t) == t
  {
    if l == "" {
      assert l + t == t;
    } else {
      assert (l + t)[1..] == l[1..] + t;
      assert l[0] in l && forall c :: c in l[1..] ==> c in l;
      TrimLeftDrops(l[1..], t);
    }
  }

  lemma {:induction false} TrimRightDrops(t: string, r: string)
    requires AllSpace(r) && (t != "" ==> !IsSpace(t[|t| - 1]))
    ensures TrimRight(t + r) == t
  {
    if r == "" {
      assert t + r == t;
    } else {
      var init := r[..|r| - 1];
      assert (t + r)[..|t + r| - 1] == t + init;
      assert r[|r| - 1] in r && forall c :: c in init ==> c in r;
      TrimRightDrops(t, init);
    }
  }

  /** Trimming removes white space at both ends, all of it, and nothing else: the result is
      the one string with other ends that the input is a padding of. */
  lemma TrimIs(l: string, t: string, r: string)
    requires AllSpace(l) && AllSpace(r) && (t != "" ==> !IsSpace(t[0]) && !IsSpace(t[|t| - 1]))
    ensures Trim(l + t + r) == t
  {
    if t == "" {
      assert l + t + r == (l + r) + "";
      TrimLeftDrops(l + r, "");
    } else {
      assert l + t + r == l + (t + r) && (t + r)[0] == t[0];
      TrimLeftDrops(l, t + r);
      TrimRightDrops(t, r);
    }
  }

  lemma {:induction false} TrimLeftSplits(s: string)
    ensures exists l :: AllSpace(l) && s == l + TrimLeft(s)
  {
    if s != "" && IsSpace(s[0]) {
      TrimLeftSplits(s[1..]);
      var l :| AllSpace(l) && s[1..] == l + TrimLeft(s[1..]);
      assert AllSpace([s[0]] + l) && s == [s[0]] + l + TrimLeft(s);
    } else {
      assert AllSpace("") && s == "" + TrimLeft(s);
    }
  }

  lemma {:induction false} TrimRightSplits(s: string)
    ensures exists r :: AllSpace(r) && s == TrimRight(s) + r
  {
    if s != "" && IsSpace(s[|s| - 1]) {
      var init, c := s[..|s| - 1], s[|s| - 1];
      TrimRightSplits(init);
      var r :| AllSpace(r) && init == TrimRight(init) + r;
      assert AllSpace(r + [c]) && s == TrimRight(s) + (r + [c]);
    } else {
      assert AllSpace("") && s == TrimRight(s) + "";
    }
  }

  lemma TrimSplits(s: string)
    ensures exists l, r :: AllSpace(l) && AllSpace(r) && s == l + Trim(s) + r
  {
    TrimLeftSplits(s);
    TrimRightSplits(TrimLeft(s));
    var l :| AllSpace(l) && s == l + TrimLeft(s);
    var r :| AllSpace(r) && TrimLeft(s) == Trim(s) + r;
    assert s == l + Trim(s) + r;
  }

  /** Splitting loses nothing: joining the parts again gives the list. */
  lemma {:induction false} JoinSplit(s: string, sep: char)
    ensures Join(Split(s, sep), sep) == s
  {
    if s != "" {
      var rest := Split(s[1..], sep);
      JoinSplit(s[1..], sep);
      assert s == [s[0]] + s[1..];
      if s[0] == sep {
        assert Split(s, sep)[1..] == rest;
      } else {
        assert Split(s, sep)[1..] == rest[1..];
        assert |rest| == 1 ==> Join(rest, sep) == rest[0];
      }
    }
  }

  /** A name without a slash stands in the default namespace; otherwise the first slash
      separates the namespace from the name. */
  lemma EntryDenotes(entry: string, defaultNS: string, ns: string, name: string)
    ensures '/' !in entry ==> NamePair(entry, defaultNS) == Ref(defaultNS, entry)
    ensures entry == ns + "/" + name && '/' !in ns ==> NamePair(entry, defaultNS) == Ref(ns, name)
  {
    if entry == ns + "/" + name && '/' !in ns {
      var i := IndexOf(entry, '/');
      assert entry[|ns|] == '/' && entry[..|ns|] == ns && entry[|ns| + 1..] == name;
      assert forall k :: 0 <= k < i ==> entry[k] == entry[..i][k];
      assert forall k :: 0 <= k < |ns| ==> entry[k] == ns[k];
    }
  }

  /** The targets denoted are those of the nonblank entries. */
  lemma {:induction false} DenotedMeans(entries: seq<string>, defaultNS: string, r: Ref)
    ensures r in Denoted(entries, defaultNS) <==>
      exists k :: 0 <= k < |entries| && Trim(entries[k]) != "" && NamePair(Trim(entries[k]), defaultNS) == r
  {
    if entries != [] {
      var init, raw := entries[..|entries| - 1], entries[|entries| - 1];
      DenotedMeans(init, defaultNS, r);
      assert entries == init + [raw];
      DenotedStep(init, raw, defaultNS);
      assert forall k :: 0 <= k < |init| ==> entries[k] == init[k];
      assert entries[|init|] == raw;
    }
  }

  /** The error names the first entry that is not well formed, with its namespace. */
  lemma {:induction false} InvalidNamesFirst(entries: seq<string>, defaultNS: string)
    requires ParseEntries(entries, defaultNS).Invalid?
    ensures exists k :: 0 <= k < |entries| && FirstInvalid(entries, defaultNS, k)
  {
    var init, raw := entries[..|entries| - 1], entries[|entries| - 1];
    assert entries == init + [raw];
    ParseEntriesStep(init, raw, defaultNS);
    if ParseEntries(init, defaultNS).Invalid? {
      InvalidNamesFirst(init, defaultNS);
      var k :| 0 <= k < |init| && FirstInvalid(init, defaultNS, k);
      assert entries[k] == init[k] && entries[..k] == init[..k];
      assert FirstInvalid(entries, defaultNS, k);
    } else {
      ParseMeans(init, defaultNS);
      assert entries[..|init|] == init;
      CompleteIffWellFormed(Trim(raw), defaultNS);
      assert FirstInvalid(entries, defaultNS, |init|);
    }
  }

  ghost predicate FirstInvalid(entries: seq<string>, defaultNS: string, k: nat)
    requires k < |entries|
  {
    var e := Trim(entries[k]);
    && AllWellFormed(entries[..k], defaultNS) && e != "" && !WellFormed(e, defaultNS)
    && ParseEntries(entries, defaultNS) == Invalid(e, NamePair(e, defaultNS).ns)
  }
}
