/** Target lists: parsing "ns/name" entries, rendering them back, and unpaired namespaces. */
module Targets {
  import opened Ordering
  import opened Kube

  // ----- the string functions of the Go library that parsing uses -----

  /** unicode.IsSpace */
  predicate IsSpace(c: char) {
    || '\t' <= c <= '\r' || c == ' ' || c == '\U{85}' || c == '\U{A0}' || c == '\U{1680}'
    || '\U{2000}' <= c <= '\U{200A}' || c == '\U{2028}' || c == '\U{2029}' || c == '\U{202F}'
    || c == '\U{205F}' || c == '\U{3000}'
  }

  function TrimLeft(s: string): string {
    if s != "" && IsSpace(s[0]) then TrimLeft(s[1..]) else s
  }

  function TrimRight(s: string): string {
    if s != "" && IsSpace(s[|s| - 1]) then TrimRight(s[..|s| - 1]) else s
  }

  function Trim(s: string): string {
    TrimRight(TrimLeft(s))
  }

  function Split(s: string, sep: char): (parts: seq<string>)
    ensures parts != []
  {
    if s == "" then [""]
    else
      var rest := Split(s[1..], sep);
      if s[0] == sep then [""] + rest else [[s[0]] + rest[0]] + rest[1..]
  }

  function Join(parts: seq<string>, sep: char): string {
    if parts == [] then "" else if |parts| == 1 then parts[0] else parts[0] + [sep] + Join(parts[1..], sep)
  }

  /** strings.Index for one character, with the length standing for "absent". */
  function IndexOf(s: string, c: char): (i: nat)
    ensures i <= |s| && c !in s[..i]
    ensures i < |s| ==> s[i] == c
    ensures i == |s| ==> c !in s
  {
    if s == "" then 0
    else if s[0] == c then 0
    else
      var i := IndexOf(s[1..], c);
      assert s[..i + 1] == [s[0]] + s[1..][..i];
      assert s == [s[0]] + s[1..];
      1 + i
  }

  // ----- parsing -----

  datatype Parsed = Refs(refs: seq<Ref>) | Invalid(entry: string, ns: string)

  function RefString(r: Ref): string {
    r.ns + "/" + r.name
  }

  function NamePair(entry: string, defaultNS: string): Ref {
    var i := IndexOf(entry, '/');
    if i < |entry| then Ref(entry[..i], entry[i + 1..]) else Ref(defaultNS, entry)
  }

  predicate Complete(r: Ref) {
    r.ns != "" && r.name != "" && '/' !in r.name
  }

  /** One iteration, on a raw entry between commas. */
  function ParseOne(p: Parsed, raw: string, defaultNS: string): Parsed {
    if p.Invalid? then p
    else
      var entry := Trim(raw);
      if entry == "" then p
      else
        var r := NamePair(entry, defaultNS);
        if !Complete(r) then Invalid(entry, r.ns)
        else if r in p.refs then p
        else Refs(p.refs + [r])
  }

  function ParseEntries(entries: seq<string>, defaultNS: string): Parsed {
    if entries == [] then Refs([])
    else ParseOne(ParseEntries(entries[..|entries| - 1], defaultNS), entries[|entries| - 1], defaultNS)
  }

  function Parse(list: string, defaultNS: string): Parsed {
    ParseEntries(Split(list, ','), defaultNS)
  }

  lemma {:induction false} InvalidStays(entries: seq<string>, defaultNS: string, i: nat)
    requires i <= |entries| && ParseEntries(entries[..i], defaultNS).Invalid?
    ensures ParseEntries(entries, defaultNS) == ParseEntries(entries[..i], defaultNS)
  {
    if i == |entries| {
      assert entries[..i] == entries;
    } else {
      assert entries[..|entries| - 1][..i] == entries[..i];
      InvalidStays(entries[..|entries| - 1], defaultNS, i);
    }
  }

  lemma ParseEntriesStep(entries: seq<string>, raw: string, defaultNS: string)
    ensures ParseEntries(entries + [raw], defaultNS) == ParseOne(ParseEntries(entries, defaultNS), raw, defaultNS)
  {
    assert (entries + [raw])[..|entries|] == entries;
  }

  /** The two parts of a nonblank entry, and whether they are acceptable. */
  method Parts(entry: string, defaultNS: string) returns (ref: Ref, ok: bool)
    ensures ref == NamePair(entry, defaultNS) && (ok <==> Complete(ref))
  {
    var ns, name := defaultNS, entry;
    var slash := IndexOf(entry, '/');
    if slash < |entry| {
      ns, name := entry[..slash], entry[slash + 1..];
    }
    ok := !(ns == "" || name == "" || IndexOf(name, '/') < |name|);
    ref := Ref(ns, name);
  }

  lemma ParseNext(entries: seq<string>, i: nat, out: seq<Ref>, defaultNS: string)
    requires i < |entries| && ParseEntries(entries[..i], defaultNS) == Refs(out)
    ensures var e := Trim(entries[i]);
      ParseEntries(entries[..i + 1], defaultNS)
      == if e == "" then Refs(out)
         else
           var r := NamePair(e, defaultNS);
           if !Complete(r) then Invalid(e, r.ns) else if r in out then Refs(out) else Refs(out + [r])
    ensures var e := Trim(entries[i]);
      e != "" && !Complete(NamePair(e, defaultNS)) ==>
        ParseEntries(entries, defaultNS) == Invalid(e, NamePair(e, defaultNS).ns)
  {
    assert entries[..i + 1] == entries[..i] + [entries[i]];
    ParseEntriesStep(entries[..i], entries[i], defaultNS);
    if ParseEntries(entries[..i + 1], defaultNS).Invalid? {
      InvalidStays(entries, defaultNS, i + 1);
    }
  }

  method ParseRefs(list: string, defaultNS: string) returns (r: Parsed)
    ensures r == Parse(list, defaultNS)
  {
    var out: seq<Ref> := [];
    var seen: set<Ref> := {};
    var entries := Split(list, ',');
    for i := 0 to |entries|
      invariant ParseEntries(entries[..i], defaultNS) == Refs(out)
      invariant forall x :: x in seen <==> x in out
    {
      ParseNext(entries, i, out, defaultNS);
      var entry := Trim(entries[i]);
      if entry == "" {
        continue;
      }
      var ref, ok := Parts(entry, defaultNS);
      if !ok {
        return Invalid(entry, ref.ns);
      }
      if ref in seen {
        continue;
      }
      seen := seen + {ref};
      out := out + [ref];
    }
    assert entries[..|entries|] == entries;
    r := Refs(out);
  }

  datatype Required = Accepted(refs: seq<Ref>) | Rejected

  method ParseRefsRequired(list: string, defaultNS: string) returns (r: Required)
    ensures r == match Parse(list, defaultNS)
                 case Invalid(_, _) => Rejected
                 case Refs(refs) => if refs == [] then Rejected else Accepted(refs)
  {
    var p := ParseRefs(list, defaultNS);
    if p.Invalid? {
      return Rejected;
    }
    if |p.refs| == 0 {
      return Rejected;
    }
    r := Accepted(p.refs);
  }

  // ----- what parsing means -----

  /** A bare name under a default namespace, or two nonempty parts around one slash. */
  ghost predicate WellFormed(entry: string, defaultNS: string) {
    || ('/' !in entry && entry != "" && defaultNS != "")
    || exists ns, name :: entry == ns + "/" + name && ns != "" && name != "" && '/' !in ns && '/' !in name
  }

  lemma CompleteIffWellFormed(entry: string, defaultNS: string)
    requires entry != ""
    ensures Complete(NamePair(entry, defaultNS)) <==> WellFormed(entry, defaultNS)
  {
    var i := IndexOf(entry, '/');
    if i < |entry| {
      assert entry == entry[..i] + "/" + entry[i + 1..];
      forall ns: string, name: string | entry == ns + "/" + name && '/' !in ns && '/' !in name
        ensures entry[..i] == ns && entry[i + 1..] == name
      {
        assert entry[|ns|] == '/' && entry[..|ns|] == ns;
        assert forall k :: 0 <= k < i ==> entry[k] == entry[..i][k];
        assert forall k :: 0 <= k < |ns| ==> entry[k] == ns[k];
      }
    } else {
      forall ns: string, name: string ensures entry != ns + "/" + name {
        assert (ns + "/" + name)[|ns|] == '/';
      }
    }
  }

  /** The targets denoted by the nonblank entries, repetitions included. */
  function Denoted(entries: seq<string>, defaultNS: string): seq<Ref> {
    if entries == [] then []
    else
      var e := Trim(entries[|entries| - 1]);
      Denoted(entries[..|entries| - 1], defaultNS) + if e == "" then [] else [NamePair(e, defaultNS)]
  }

  /** Keeps the first occurrence of each element. */
  function Firsts(s: seq<Ref>): seq<Ref> {
    if s == [] then []
    else
      var r, x := Firsts(s[..|s| - 1]), s[|s| - 1];
      if x in r then r else r + [x]
  }

  /** `x` occurs in `s` before any occurrence of `y`. */
  ghost predicate Precedes(s: seq<Ref>, x: Ref, y: Ref) {
    exists k :: 0 <= k < |s| && s[k] == x && y !in s[..k + 1]
  }

  lemma {:induction false} FirstsMeans(s: seq<Ref>)
    ensures Distinct(Firsts(s)) && forall x :: x in Firsts(s) <==> x in s
    ensures forall i, j :: 0 <= i < j < |Firsts(s)| ==> Precedes(s, Firsts(s)[i], Firsts(s)[j])
  {
    if s != [] {
      var init, x := s[..|s| - 1], s[|s| - 1];
      FirstsMeans(init);
      assert s == init + [x];
      var r, t := Firsts(init), Firsts(s);
      assert forall k :: 0 <= k < |r| ==> r[k] in r && r[k] in init;
      forall i, j | 0 <= i < j < |t| ensures Precedes(s, t[i], t[j]) {
        if j < |r| {
          assert Precedes(init, r[i], r[j]);
          var k :| 0 <= k < |init| && init[k] == r[i] && r[j] !in init[..k + 1];
          assert s[k] == t[i] && s[..k + 1] == init[..k + 1];
        } else {
          assert t[i] == r[i] && t[i] in init;
          var k :| 0 <= k < |init| && init[k] == t[i];
          assert s[k] == t[i] && s[..k + 1] == init[..k + 1];
          assert forall y :: y in init[..k + 1] ==> y in init;
        }
      }
    }
  }

  ghost predicate AllWellFormed(entries: seq<string>, defaultNS: string) {
    forall k :: 0 <= k < |entries| && Trim(entries[k]) != "" ==> WellFormed(Trim(entries[k]), defaultNS)
  }

  lemma AllWellFormedStep(init: seq<string>, raw: string, defaultNS: string)
    ensures AllWellFormed(init + [raw], defaultNS)
       <==> AllWellFormed(init, defaultNS) && (Trim(raw) == "" || Complete(NamePair(Trim(raw), defaultNS)))
  {
    var all := init + [raw];
    assert forall k :: 0 <= k < |init| ==> all[k] == init[k];
    assert all[|init|] == raw;
    if Trim(raw) != "" {
      CompleteIffWellFormed(Trim(raw), defaultNS);
    }
  }

  lemma DenotedStep(init: seq<string>, raw: string, defaultNS: string)
    ensures Denoted(init + [raw], defaultNS)
         == Denoted(init, defaultNS) + if Trim(raw) == "" then [] else [NamePair(Trim(raw), defaultNS)]
  {
    assert (init + [raw])[..|init|] == init;
  }

  lemma FirstsStep(s: seq<Ref>, x: Ref)
    ensures Firsts(s + [x]) == if x in Firsts(s) then Firsts(s) else Firsts(s) + [x]
  {
    assert (s + [x])[..|s|] == s;
  }

  lemma ParseOneMeans(p: Parsed, raw: string, ds: seq<Ref>, defaultNS: string)
    requires p.Refs? ==> p.refs == Firsts(ds)
    ensures var q, r := ParseOne(p, raw, defaultNS), NamePair(Trim(raw), defaultNS);
      && (q.Refs? <==> p.Refs? && (Trim(raw) == "" || Complete(r)))
      && (q.Refs? ==> q.refs == Firsts(ds + if Trim(raw) == "" then [] else [r]))
  {
    FirstsStep(ds, NamePair(Trim(raw), defaultNS));
    assert ds + [] == ds;
  }

  /** Parsing succeeds exactly when every nonblank entry is well formed; it then returns
      the denoted targets, each at its first occurrence. */
  lemma {:induction false} ParseMeans(entries: seq<string>, defaultNS: string)
    ensures ParseEntries(entries, defaultNS).Refs? <==> AllWellFormed(entries, defaultNS)
    ensures ParseEntries(entries, defaultNS).Refs? ==>
      ParseEntries(entries, defaultNS).refs == Firsts(Denoted(entries, defaultNS))
  {
    if entries != [] {
      var init, raw := entries[..|entries| - 1], entries[|entries| - 1];
      ParseMeans(init, defaultNS);
      assert entries == init + [raw];
      ParseEntriesStep(init, raw, defaultNS);
      AllWellFormedStep(init, raw, defaultNS);
      DenotedStep(init, raw, defaultNS);
      ParseOneMeans(ParseEntries(init, defaultNS), raw, Denoted(init, defaultNS), defaultNS);
    }
  }

  /** The targets an actuator is configured with are distinct and have nonempty parts. */
  lemma ParsedAreTargets(list: string, defaultNS: string)
    requires Parse(list, defaultNS).Refs?
    ensures Distinct(Parse(list, defaultNS).refs)
    ensures forall r :: r in Parse(list, defaultNS).refs ==> Complete(r)
  {
    ParseMeans(Split(list, ','), defaultNS);
    FirstsMeans(Denoted(Split(list, ','), defaultNS));
    ParsedComplete(Split(list, ','), defaultNS);
  }

  lemma {:induction false} ParsedComplete(entries: seq<string>, defaultNS: string)
    requires ParseEntries(entries, defaultNS).Refs?
    ensures forall r :: r in ParseEntries(entries, defaultNS).refs ==> Complete(r)
  {
    if entries != [] {
      ParsedComplete(entries[..|entries| - 1], defaultNS);
    }
  }
}
