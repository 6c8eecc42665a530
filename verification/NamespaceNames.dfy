/** The comma-separated namespace/name lists of the command line. */
module NamespaceNames {
  import opened Kube

  datatype NamespaceName = NamespaceName(namespace: string, name: string)

  // ---------------------------------------------------------------- splitting and joining

  /** Putting a character in front of the first part. */
  function Prepend(x: char, parts: seq<string>): seq<string>
    requires |parts| > 0
  {
    [[x] + parts[0]] + parts[1..]
  }

  /** strings.Split for a one-character separator: always at least one part. */
  function Split(s: string, c: char): (parts: seq<string>)
    ensures |parts| > 0
  {
    if s == [] then [[]]
    else
      var rest := Split(s[1..], c);
      if s[0] == c then [[]] + rest else Prepend(s[0], rest)
  }

  function Join(parts: seq<string>, c: char): string {
    if parts == [] then []
    else if |parts| == 1 then parts[0]
    else Join(parts[..|parts| - 1], c) + [c] + parts[|parts| - 1]
  }

  lemma {:induction false} SplitPlain(s: string, c: char)
    requires c !in s
    ensures Split(s, c) == [s]
  {
    if s == [] {
    } else {
      SplitPlain(s[1..], c);
      assert [s[0]] + s[1..] == s;
    }
  }

  lemma PrependConcat(x: char, p: seq<string>, q: seq<string>)
    requires |p| > 0
    ensures Prepend(x, p + q) == Prepend(x, p) + q
  {
  }

  /** Splitting distributes over a separator. */
  lemma {:induction false} SplitAt(a: string, c: char, b: string)
    ensures Split(a + [c] + b, c) == Split(a, c) + Split(b, c)
  {
    var s := a + [c] + b;
    if a == [] {
      assert s[0] == c && s[1..] == b;
    } else {
      SplitAt(a[1..], c, b);
      assert s[0] == a[0] && s[1..] == a[1..] + [c] + b;
      if a[0] != c {
        PrependConcat(a[0], Split(a[1..], c), Split(b, c));
      }
    }
  }

  /** Parts hold no separator, and no character that the whole does not hold. */
  lemma {:induction false} PartsAreClean(s: string, c: char, d: char)
    ensures forall p :: p in Split(s, c) ==> c !in p
    ensures d !in s ==> forall p :: p in Split(s, c) ==> d !in p
  {
    if s == [] {
    } else {
      PartsAreClean(s[1..], c, d);
    }
  }

  lemma {:induction false} SplitJoin(parts: seq<string>, c: char)
    requires parts != [] && forall p :: p in parts ==> c !in p
    ensures Split(Join(parts, c), c) == parts
  {
    var last := parts[|parts| - 1];
    SplitPlain(last, c);
    if |parts| == 1 {
      assert parts == [last];
    } else {
      var front := parts[..|parts| - 1];
      assert parts == front + [last];
      SplitJoin(front, c);
      SplitAt(Join(front, c), c, last);
    }
  }

  // ---------------------------------------------------------------- parsing and printing

  /** The names read before the first malformed part, and whether there was none. */
  datatype Parsed = Parsed(names: seq<NamespaceName>, ok: bool)

  function ParseOne(nn: string): Option<NamespaceName> {
    var parts := Split(nn, '/');
    if |parts| == 1 then Some(NamespaceName(NAMESPACE_DEFAULT, parts[0]))
    else if |parts| == 2 then Some(NamespaceName(parts[0], parts[1]))
    else None
  }

  function ParseParts(parts: seq<string>): Parsed {
    if parts == [] then Parsed([], true)
    else
      var front := ParseParts(parts[..|parts| - 1]);
      var last := ParseOne(parts[|parts| - 1]);
      if !front.ok then front
      else if last.None? then front.(ok := false)
      else Parsed(front.names + [last.value], true)
  }

  function Parse(nns: string): Parsed {
    ParseParts(Split(nns, ','))
  }

  function PrintOne(nn: NamespaceName): string {
    nn.namespace + "/" + nn.name
  }

  function PrintParts(ns: seq<NamespaceName>): seq<string> {
    if ns == [] then [] else PrintParts(ns[..|ns| - 1]) + [PrintOne(ns[|ns| - 1])]
  }

  function Print(ns: seq<NamespaceName>): string {
    Join(PrintParts(ns), ',')
  }

  /** The separators do not occur in the names. */
  predicate Clean(nn: NamespaceName) {
    ',' !in nn.namespace && ',' !in nn.name && '/' !in nn.namespace && '/' !in nn.name
  }

  predicate AllClean(ns: seq<NamespaceName>) {
    forall n :: n in ns ==> Clean(n)
  }

  // ---------------------------------------------------------------- what is read

  lemma {:induction false} SplitSize(s: string, c: char)
    ensures |Split(s, c)| == multiset(s)[c] + 1
  {
    if s == [] {
    } else {
      SplitSize(s[1..], c);
      assert s == [s[0]] + s[1..];
    }
  }

  /** A part without a slash is a name in the default namespace, a part with one slash is a namespace and a name, and a
      part with more is malformed. */
  lemma ReadOne(nn: string)
    ensures '/' !in nn ==> ParseOne(nn) == Some(NamespaceName("default", nn))
    ensures forall a, b :: '/' !in a && '/' !in b && nn == a + "/" + b ==> ParseOne(nn) == Some(NamespaceName(a, b))
    ensures ParseOne(nn).None? <==> multiset(nn)['/'] > 1
  {
    SplitSize(nn, '/');
    if '/' !in nn { SplitPlain(nn, '/'); }
    forall a, b | '/' !in a && '/' !in b && nn == a + "/" + b ensures ParseOne(nn) == Some(NamespaceName(a, b)) {
      SplitAt(a, '/', b);
      SplitPlain(a, '/');
      SplitPlain(b, '/');
      assert nn == a + ['/'] + b;
    }
  }

  /** A list without a comma is a single part. */
  lemma ReadSingle(nn: string)
    requires ',' !in nn
    ensures '/' !in nn ==> Parse(nn) == Parsed([NamespaceName("default", nn)], true)
    ensures Parse(nn).ok <==> multiset(nn)['/'] <= 1
  {
    SplitPlain(nn, ',');
    ReadOne(nn);
    assert [nn][..0] == [] && [nn][0] == nn;
    assert ParseParts([nn]).ok <==> ParseOne(nn).Some?;
  }

  // ---------------------------------------------------------------- round trips

  lemma ParsePrintOne(nn: NamespaceName)
    requires Clean(nn)
    ensures ParseOne(PrintOne(nn)) == Some(nn) && ',' !in PrintOne(nn)
  {
    SplitAt(nn.namespace, '/', nn.name);
    SplitPlain(nn.namespace, '/');
    SplitPlain(nn.name, '/');
    assert nn.namespace + "/" + nn.name == nn.namespace + ['/'] + nn.name;
  }

  lemma ParsePartsSnoc(parts: seq<string>, p: string)
    requires ParseParts(parts).ok && ParseOne(p).Some?
    ensures ParseParts(parts + [p]) == Parsed(ParseParts(parts).names + [ParseOne(p).value], true)
  {
  }

  lemma {:induction false} PrintedPartsAreClean(ns: seq<NamespaceName>)
    requires AllClean(ns)
    ensures |PrintParts(ns)| == |ns| && forall i :: 0 <= i < |ns| ==> ',' !in PrintParts(ns)[i]
  {
    if ns == [] {
    } else {
      PrintedPartsAreClean(ns[..|ns| - 1]);
      ParsePrintOne(ns[|ns| - 1]);
    }
  }

  lemma {:induction false} ParsePrintParts(ns: seq<NamespaceName>)
    requires AllClean(ns)
    ensures ParseParts(PrintParts(ns)) == Parsed(ns, true)
  {
    if ns == [] {
    } else {
      var front, last := ns[..|ns| - 1], ns[|ns| - 1];
      ParsePrintParts(front);
      ParsePrintOne(last);
      ParsePartsSnoc(PrintParts(front), PrintOne(last));
      assert ns == front + [last];
    }
  }

  lemma ParsePrint(ns: seq<NamespaceName>)
    requires ns != [] && AllClean(ns)
    ensures Parse(Print(ns)) == Parsed(ns, true)
  {
    ParsePrintParts(ns);
    PrintedPartsAreClean(ns);
    SplitJoin(PrintParts(ns), ',');
  }

  lemma ParsedOneIsClean(nn: string)
    requires ',' !in nn && ParseOne(nn).Some?
    ensures Clean(ParseOne(nn).value)
  {
    PartsAreClean(nn, '/', ',');
    assert forall i :: 0 <= i < |Split(nn, '/')| ==> Split(nn, '/')[i] in Split(nn, '/');
  }

  lemma {:induction false} ParsedPartsAreClean(parts: seq<string>)
    requires forall p :: p in parts ==> ',' !in p
    ensures AllClean(ParseParts(parts).names)
    ensures ParseParts(parts).ok ==> |ParseParts(parts).names| == |parts|
  {
    if parts == [] {
    } else {
      ParsedPartsAreClean(parts[..|parts| - 1]);
      if ParseOne(parts[|parts| - 1]).Some? { ParsedOneIsClean(parts[|parts| - 1]); }
    }
  }

  /** What is read never contains a separator, and a successful read yields at least one name. */
  lemma ParsedIsClean(nns: string)
    ensures AllClean(Parse(nns).names)
    ensures Parse(nns).ok ==> Parse(nns).names != []
  {
    PartsAreClean(nns, ',', ',');
    ParsedPartsAreClean(Split(nns, ','));
  }

  /** Reading back what is printed gives the same list exactly when the list is not empty and free of separators. */
  lemma RoundTripExactlyWhen(ns: seq<NamespaceName>)
    ensures Parse(Print(ns)) == Parsed(ns, true) <==> ns != [] && AllClean(ns)
  {
    if ns != [] && AllClean(ns) {
      ParsePrint(ns);
    } else {
      ParsedIsClean(Print(ns));
    }
  }

  /** Printing what was read is a normal form: it reads back as the same list, and prints the same again. */
  lemma PrintIsNormalForm(nns: string)
    requires Parse(nns).ok
    ensures Parse(Print(Parse(nns).names)) == Parse(nns)
    ensures Print(Parse(Print(Parse(nns).names)).names) == Print(Parse(nns).names)
  {
    ParsedIsClean(nns);
    ParsePrint(Parse(nns).names);
  }

  lemma {:induction false} ParsePartsConcat(a: seq<string>, b: seq<string>)
    ensures var (pa, pb, p) := (ParseParts(a), ParseParts(b), ParseParts(a + b));
      p == if pa.ok then Parsed(pa.names + pb.names, pb.ok) else pa
  {
    if b == [] {
      assert a + b == a;
    } else {
      ParsePartsConcat(a, b[..|b| - 1]);
      assert (a + b)[..|a + b| - 1] == a + b[..|b| - 1];
    }
  }

  /** Reading two lists at once is reading one after the other; the second is not read if the first is malformed. */
  lemma ParseConcat(a: string, b: string)
    ensures var (pa, pb) := (Parse(a), Parse(b));
      Parse(a + "," + b) == if pa.ok then Parsed(pa.names + pb.names, pb.ok) else pa
  {
    SplitAt(a, ',', b);
    assert a + "," + b == a + [','] + b;
    ParsePartsConcat(Split(a, ','), Split(b, ','));
  }

  // ---------------------------------------------------------------- the flag value

  class NameList {
    var items: seq<NamespaceName>

    constructor ()
      ensures items == []
    {
      items := [];
    }

    /** Appends the names read; those before a malformed part stay appended. */
    method Set(nns: string) returns (ok: bool)
      modifies this
      ensures items == old(items) + Parse(nns).names && ok == Parse(nns).ok
    {
      var parts := Split(nns, ',');
      for i := 0 to |parts|
        invariant old(items) <= items
        invariant ParseParts(parts[..i]) == Parsed(items[|old(items)|..], true)
      {
        assert parts[..i + 1][..i] == parts[..i];
        var nnStrs := Split(parts[i], '/');
        if |nnStrs| == 1 {
          items := items + [NamespaceName(NAMESPACE_DEFAULT, nnStrs[0])];
        } else if |nnStrs| == 2 {
          items := items + [NamespaceName(nnStrs[0], nnStrs[1])];
        } else {
          ParsePartsConcat(parts[..i + 1], parts[i + 1..]);
          assert parts[..i + 1] + parts[i + 1..] == parts;
          return false;
        }
      }
      assert parts[..|parts|] == parts;
      ok := true;
    }

    method String() returns (s: string)
      ensures s == Print(items)
    {
      var strs: seq<string> := [];
      for i := 0 to |items|
        invariant strs == PrintParts(items[..i])
      {
        assert items[..i + 1][..i] == items[..i];
        strs := strs + [items[i].namespace + "/" + items[i].name];
      }
      assert items[..|items|] == items;
      s := Join(strs, ',');
    }
  }
}
