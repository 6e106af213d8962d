/** The Icon-Options header: printer and parser (relayer/chains/icon/client.go:502-533). */
module IconOptions {
  import opened Strings
  import opened Types

  // ---------- strings.Split and strings.Index ----------

  function Split(s: string, sep: char): (parts: seq<string>)
    ensures |parts| >= 1 && forall i :: 0 <= i < |parts| ==> sep !in parts[i]
  {
    if s == "" then [""]
    else if s[0] == sep then [""] + Split(s[1..], sep)
    else
      var rest := Split(s[1..], sep);
      [[s[0]] + rest[0]] + rest[1..]
  }

  lemma {:induction false} SplitFirst(part: string, sep: char, rest: string)
    requires sep !in part
    ensures Split(part + [sep] + rest, sep) == [part] + Split(rest, sep) && Split(part, sep) == [part]
    decreases |part|
  {
    var s := part + [sep] + rest;
    if part == "" {
      assert s[1..] == rest;
    } else {
      SplitFirst(part[1..], sep, rest);
      assert s[1..] == part[1..] + [sep] + rest;
      assert [part[0]] + part[1..] == part;
    }
  }

  lemma {:induction false} SplitJoin(parts: seq<string>, sep: char)
    requires parts != [] && forall p :: p in parts ==> sep !in p
    ensures Split(Join(parts, sep), sep) == parts
    decreases |parts|
  {
    if |parts| == 1 {
      SplitFirst(parts[0], sep, "");
    } else {
      SplitFirst(parts[0], sep, Join(parts[1..], sep));
      SplitJoin(parts[1..], sep);
      assert parts == [parts[0]] + parts[1..];
    }
  }

  function Index(s: string, c: char): (i: int)
    ensures -1 <= i < |s| && (i == -1 <==> c !in s) && (i >= 0 ==> s[i] == c && c !in s[..i])
  {
    if s == "" then -1
    else if s[0] == c then 0
    else
      var i := Index(s[1..], c);
      assert s == [s[0]] + s[1..];
      assert i >= 0 ==> s[..i + 1] == [s[0]] + s[1..][..i];
      if i == -1 then -1 else i + 1
  }

  // ---------- the printer and the parser ----------

  type Options = map<string, string>

  function Pair(k: string, v: string): string { k + "=" + v }

  function Pairs(opts: Options, order: seq<string>): seq<string>
    requires forall k :: k in order ==> k in opts
  {
    seq(|order|, i requires 0 <= i < |order| => Pair(order[i], opts[order[i]]))
  }

  /** A Go map may be iterated in any order. */
  ghost predicate IsOrder(opts: Options, order: seq<string>)
  {
    && (forall k :: k in order <==> k in opts)
    && (forall i, j :: 0 <= i < j < |order| ==> order[i] != order[j])
  }

  function Print(opts: Options, order: seq<string>): string
    requires forall k :: k in order ==> k in opts
  {
    Join(Pairs(opts, order), ',')
  }

  /** The slice is filled by index. */
  method ToHeaderValue(opts: Option<Options>) returns (s: string, ghost order: seq<string>)
    ensures opts.None? ==> s == ""
    ensures opts.Some? ==> IsOrder(opts.value, order) && s == Print(opts.value, order)
  {
    order := [];
    if opts.None? { return "", []; }
    var m := opts.value;
    var strs := new string[|m|];
    var todo := m.Keys;
    var i := 0;
    while todo != {}
      invariant todo <= m.Keys && i == |order| && i + |todo| == |m|
      invariant forall k :: k in order <==> k in m && k !in todo
      invariant forall j, l :: 0 <= j < l < |order| ==> order[j] != order[l]
      invariant forall j :: 0 <= j < i ==> strs[j] == Pair(order[j], m[order[j]])
      decreases |todo|
    {
      var k :| k in todo;
      strs[i] := Pair(k, m[k]);
      order := order + [k];
      todo := todo - {k};
      i := i + 1;
    }
    assert strs[..] == Pairs(m, order);
    s := Join(strs[..], ',');
  }

  function KeyOf(kv: string): string
  {
    var i := Index(kv, '=');
    if i > 0 then kv[..i] else kv
  }

  function ValueOf(kv: string): string
  {
    var i := Index(kv, '=');
    if i > 0 then kv[i + 1..] else ""
  }

  function ParsePairs(kvs: seq<string>): Options
  {
    if kvs == [] then map[]
    else
      var kv := kvs[|kvs| - 1];
      var m := ParsePairs(kvs[..|kvs| - 1]);
      if kv == "" then m else m[KeyOf(kv) := ValueOf(kv)]
  }

  function Parse(s: string): Option<Options> { if s == "" then None else Some(ParsePairs(Split(s, ','))) }

  method NewIconOptionsByHeader(s: string) returns (opts: Option<Options>)
    ensures opts == Parse(s)
  {
    if s == "" { return None; }
    var kvs := Split(s, ',');
    var m: Options := map[];
    for i := 0 to |kvs|
      invariant m == ParsePairs(kvs[..i])
    {
      var kv := kvs[i];
      assert kvs[..i + 1][..i] == kvs[..i];
      if kv != "" {
        var idx := Index(kv, '=');
        if idx > 0 {
          m := m[kv[..idx] := kv[idx + 1..]];
        } else {
          m := m[kv := ""];
        }
      }
    }
    assert kvs[..|kvs|] == kvs;
    opts := Some(m);
  }

  // ---------- round trip ----------

  predicate Clean(opts: Options)
  {
    forall k :: k in opts ==> k != "" && ',' !in k && '=' !in k && ',' !in opts[k]
  }

  lemma IndexOfFirst(a: string, c: char, b: string)
    requires c !in a
    ensures Index(a + [c] + b, c) == |a|
  {
    var s := a + [c] + b;
    var i := Index(s, c);
    assert s[|a|] == c;
    assert forall j :: 0 <= j < |a| ==> s[j] == a[j] && a[j] in a;
    assert forall j :: 0 <= j < i ==> s[j] in s[..i];
  }

  lemma PairBack(k: string, v: string)
    requires k != "" && '=' !in k
    ensures KeyOf(Pair(k, v)) == k && ValueOf(Pair(k, v)) == v
  {
    IndexOfFirst(k, '=', v);
  }

  /** A part without an equals sign, or with nothing before it, is a key without a value. */
  lemma BareReads(kv: string)
    requires kv != "" && ('=' !in kv || kv[0] == '=')
    ensures KeyOf(kv) == kv && ValueOf(kv) == ""
  {
  }

  /** The parser reads any header: every part that is not empty sets its key, and the last one of a key wins. */
  lemma {:induction false} ParseReads(kvs: seq<string>, i: nat)
    requires i < |kvs| && kvs[i] != ""
    requires forall j :: i < j < |kvs| ==> kvs[j] == "" || KeyOf(kvs[j]) != KeyOf(kvs[i])
    ensures var m := ParsePairs(kvs); KeyOf(kvs[i]) in m && m[KeyOf(kvs[i])] == ValueOf(kvs[i])
    decreases |kvs|
  {
    if i < |kvs| - 1 { ParseReads(kvs[..|kvs| - 1], i); }
  }

  lemma {:induction false} ParseReadsOnly(kvs: seq<string>, k: string) returns (i: nat)
    requires k in ParsePairs(kvs)
    ensures i < |kvs| && kvs[i] != "" && KeyOf(kvs[i]) == k
    decreases |kvs|
  {
    var front, kv := kvs[..|kvs| - 1], kvs[|kvs| - 1];
    if kv != "" && KeyOf(kv) == k { return |kvs| - 1; }
    i := ParseReadsOnly(front, k);
  }

  lemma {:induction false} ParseClean(opts: Options, order: seq<string>)
    requires Clean(opts) && (forall k :: k in order ==> k in opts)
    ensures ParsePairs(Pairs(opts, order)) == map k | k in order :: opts[k]
    decreases |order|
  {
    if order != [] {
      var front, k := order[..|order| - 1], order[|order| - 1];
      assert order == front + [k];
      assert k in order;
      ParseClean(opts, front);
      ParseLast(opts, front, k);
    }
  }

  lemma ParseLast(opts: Options, front: seq<string>, k: string)
    requires Clean(opts) && k in opts && (forall x :: x in front ==> x in opts)
    ensures ParsePairs(Pairs(opts, front + [k])) == ParsePairs(Pairs(opts, front))[k := opts[k]]
  {
    assert Pairs(opts, front + [k])[..|front|] == Pairs(opts, front);
    PairBack(k, opts[k]);
  }

  /** Split gives the printed pairs back when no comma is in a key or in a value. */
  lemma SplitPrint(opts: Options, order: seq<string>)
    requires IsOrder(opts, order) && opts != map[] && forall k :: k in opts ==> ',' !in k && ',' !in opts[k]
    ensures Print(opts, order) != "" && Split(Print(opts, order), ',') == Pairs(opts, order)
  {
    var pairs := Pairs(opts, order);
    var k :| k in opts;
    assert k in order;
    forall p | p in pairs ensures ',' !in p {
      var i :| 0 <= i < |pairs| && pairs[i] == p;
      assert order[i] in order;
    }
    SplitJoin(pairs, ',');
    assert |pairs[0]| >= 1;
  }

  lemma {:induction false} ParsedKeys(kvs: seq<string>)
    requires forall i :: 0 <= i < |kvs| ==> ',' !in kvs[i]
    ensures forall k :: k in ParsePairs(kvs) ==> ',' !in k && ',' !in ParsePairs(kvs)[k]
    ensures forall i :: 0 <= i < |kvs| && kvs[i] != "" ==> KeyOf(kvs[i]) in ParsePairs(kvs)
    decreases |kvs|
  {
    if kvs != [] {
      var front, kv := kvs[..|kvs| - 1], kvs[|kvs| - 1];
      ParsedKeys(front);
      var i := Index(kv, '=');
      assert i > 0 ==> forall c :: c in kv[..i] || c in kv[i + 1..] ==> c in kv;
      forall j | 0 <= j < |kvs| && kvs[j] != "" ensures KeyOf(kvs[j]) in ParsePairs(kvs) {
        if j < |front| { assert front[j] == kvs[j]; }
      }
    }
  }

  /** A key that is empty, or begins with the equals sign, comes back longer. */
  predicate Grows(k: string) { k == "" || k[0] == '=' }

  lemma {:induction false} GrowsForever(opts: Options, order: seq<string>, k: string, longest: nat)
    requires IsOrder(opts, order) && ParsePairs(Pairs(opts, order)) == opts
    requires forall x :: x in opts ==> ',' !in x && ',' !in opts[x] && |x| <= longest
    requires k in opts && Grows(k)
    ensures false
    decreases longest - |k|
  {
    var pairs := Pairs(opts, order);
    var i :| 0 <= i < |order| && order[i] == k;
    var kv := Pair(k, opts[k]);
    assert pairs[i] == kv && kv[0] == '=';
    forall j | 0 <= j < |pairs| ensures ',' !in pairs[j] { assert order[j] in opts; }
    ParsedKeys(pairs);
    assert KeyOf(kv) == kv;
    GrowsForever(opts, order, kv, longest);
  }

  ghost function Longest(keys: set<string>): (n: nat)
    ensures forall k :: k in keys ==> |k| <= n
  {
    if keys == {} then 0
    else
      var k :| k in keys;
      var n := Longest(keys - {k});
      if |k| > n then |k| else n
  }

  lemma EmptyTogether(opts: Options, order: seq<string>)
    requires IsOrder(opts, order)
    ensures order == [] <==> opts == map[]
  {
    if order != [] { assert order[0] in order; }
    if opts != map[] {
      var k :| k in opts;
      assert k in order;
    }
  }

  /** For every iteration order: what is parsed is what was printed, if and only if the map is not
      empty, keys are not empty and have no comma and no equals sign, and values have no comma. */
  lemma RoundTrip(opts: Options, order: seq<string>)
    requires IsOrder(opts, order)
    ensures Parse(Print(opts, order)) == Some(opts) <==> opts != map[] && Clean(opts)
    ensures opts == map[] ==> Parse(Print(opts, order)) == None
  {
    if opts == map[] {
      EmptyTogether(opts, order);
    } else if forall k :: k in opts ==> ',' !in k && ',' !in opts[k] {
      SplitPrint(opts, order);
      if Clean(opts) {
        ParseClean(opts, order);
        assert opts == map k | k in order :: opts[k];
      } else if Parse(Print(opts, order)) == Some(opts) {
        var k :| k in opts && (k == "" || '=' in k);
        BadKey(opts, order, k);
      }
    } else {
      ParsedKeys(Split(Print(opts, order), ','));
    }
  }

  lemma BadKey(opts: Options, order: seq<string>, k: string)
    requires IsOrder(opts, order) && k in opts && (k == "" || '=' in k)
    requires forall x :: x in opts ==> ',' !in x && ',' !in opts[x]
    ensures ParsePairs(Pairs(opts, order)) != opts
  {
    if ParsePairs(Pairs(opts, order)) == opts {
      ParsedShape(Pairs(opts, order), k);
      GrowsForever(opts, order, k, Longest(opts.Keys));
    }
  }

  /** A parsed key has no equals sign, or begins with it. */
  lemma {:induction false} ParsedShape(kvs: seq<string>, k: string)
    requires k in ParsePairs(kvs)
    ensures k != "" && ('=' in k ==> k[0] == '=')
    decreases |kvs|
  {
    var front, kv := kvs[..|kvs| - 1], kvs[|kvs| - 1];
    if kv == "" || k != KeyOf(kv) { ParsedShape(front, k); }
  }
}
