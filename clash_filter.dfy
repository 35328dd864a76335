/** The Clash subscription filter of the legacy server: every proxy group
    loses the proxy names that match a pattern, and the rest of the YAML
    document is written back unchanged. YAML decoding and encoding and
    regexp.MatchString (with the fixed pattern; an invalid pattern matches
    nothing) are parameters. */
module ClashFilter {
  import opened GoText

  /** A decoded YAML value, with the mapping keys as strings. */
  datatype Yaml =
    | YNull
    | YString(s: string)
    | YBool(b: bool)
    | YInt(i: int)
    | YFloat(text: string)  // kept as its text: the filter never reads it
    | YList(items: seq<Yaml>)
    | YMap(entries: map<string, Yaml>)

  const ProxyGroups: string := "proxy-groups"
  const Proxies: string := "proxies"

  /** What ClashHandler ends with: the encoded document, or a panic. */
  datatype Outcome = Text(s: string) | Panic

  /** contains: whether e occurs in s. */
  method Contains(s: seq<int>, e: int) returns (r: bool)
    ensures r <==> e in s
  {
    for i := 0 to |s|
      invariant e !in s[..i]
    {
      if s[i] == e {
        return true;
      }
      assert s[..i + 1] == s[..i] + [s[i]];
    }
    assert s[..|s|] == s;
    return false;
  }

  predicate AllStrings(xs: seq<Yaml>) {
    forall i :: 0 <= i < |xs| ==> xs[i].YString?
  }

  /** A list entry the filter removes. */
  predicate Matched(x: Yaml, matches: string -> bool) {
    x.YString? && matches(x.s)
  }

  /** The entries kept, in their original order. */
  function Kept(xs: seq<Yaml>, matches: string -> bool): (r: seq<Yaml>)
    ensures |r| <= |xs|
  {
    if xs == [] then []
    else Kept(xs[..|xs| - 1], matches) + (if Matched(xs[|xs| - 1], matches) then [] else [xs[|xs| - 1]])
  }

  /** The kept entries are exactly the entries that do not match. */
  lemma {:induction false} KeptMembers(xs: seq<Yaml>, matches: string -> bool)
    ensures forall x :: x in Kept(xs, matches) <==> x in xs && !Matched(x, matches)
  {
    if xs != [] {
      var init := xs[..|xs| - 1];
      KeptMembers(init, matches);
      assert xs == init + [xs[|xs| - 1]];
    }
  }

  /** The positions of the matching entries, in order. */
  function MatchIndices(xs: seq<Yaml>, matches: string -> bool): (r: seq<int>)
    ensures forall k :: k in r <==> 0 <= k < |xs| && Matched(xs[k], matches)
    ensures forall i, j :: 0 <= i < j < |r| ==> r[i] < r[j]
    ensures forall i :: 0 <= i < |r| ==> 0 <= r[i] < |xs|
  {
    if xs == [] then []
    else
      var n := |xs| - 1;
      var init := xs[..n];
      var prev := MatchIndices(init, matches);
      assert forall k :: 0 <= k < n ==> init[k] == xs[k];
      assert forall k :: k in prev ==> k < n;
      prev + (if Matched(xs[n], matches) then [n] else [])
  }

  /** Filtering keeps order: it distributes over concatenation. */
  lemma {:induction false} KeptAppend(a: seq<Yaml>, b: seq<Yaml>, matches: string -> bool)
    ensures Kept(a + b, matches) == Kept(a, matches) + Kept(b, matches)
  {
    if b == [] {
      assert a + b == a;
    } else {
      var b' := b[..|b| - 1];
      KeptAppend(a, b', matches);
      assert (a + b)[..|a + b| - 1] == a + b';
      assert (a + b)[|a + b| - 1] == b[|b| - 1];
    }
  }

  /** The new list is the old one less one entry per match. */
  lemma {:induction false} KeptLength(xs: seq<Yaml>, matches: string -> bool)
    ensures |Kept(xs, matches)| == |xs| - |MatchIndices(xs, matches)|
  {
    if xs != [] {
      KeptLength(xs[..|xs| - 1], matches);
    }
  }

  /** Filtering a filtered list changes nothing. */
  lemma {:induction false} KeptIdempotent(xs: seq<Yaml>, matches: string -> bool)
    ensures Kept(Kept(xs, matches), matches) == Kept(xs, matches)
  {
    if xs != [] {
      var init := xs[..|xs| - 1];
      var last := xs[|xs| - 1];
      KeptIdempotent(init, matches);
      if !Matched(last, matches) {
        assert [last][..0] == [];
        assert Kept([last], matches) == [last];
        KeptAppend(Kept(init, matches), [last], matches);
      } else {
        assert Kept(xs, matches) == Kept(init, matches) + [];
        assert Kept(init, matches) + [] == Kept(init, matches);
      }
    }
  }

  lemma MatchStep(xs: seq<Yaml>, i: int, matches: string -> bool)
    requires 0 <= i < |xs|
    ensures MatchIndices(xs[..i + 1], matches) == MatchIndices(xs[..i], matches) + (if Matched(xs[i], matches) then [i] else [])
    ensures AllStrings(xs[..i]) && xs[i].YString? ==> AllStrings(xs[..i + 1])
  {
    assert xs[..i + 1][..i] == xs[..i];
  }

  lemma KeptStep(xs: seq<Yaml>, i: int, matches: string -> bool)
    requires 0 <= i < |xs|
    ensures Kept(xs[..i + 1], matches) == Kept(xs[..i], matches) + (if Matched(xs[i], matches) then [] else [xs[i]])
  {
    assert xs[..i + 1][..i] == xs[..i];
  }

  /** The two loops over one "proxies" list: the first collects the
      positions of the matching names, and panics at the first entry that
      is not a string; the second copies the entries whose position was not
      collected. */
  method FilterProxies(proxies: seq<Yaml>, matches: string -> bool) returns (r: Option<seq<Yaml>>)
    ensures r.None? <==> !AllStrings(proxies)
    ensures r.Some? ==> r.value == Kept(proxies, matches)
  {
    var deleteIndex: seq<int> := [];
    for i := 0 to |proxies|
      invariant AllStrings(proxies[..i])
      invariant deleteIndex == MatchIndices(proxies[..i], matches)
    {
      MatchStep(proxies, i, matches);
      if !proxies[i].YString? {
        return None;
      }
      if matches(proxies[i].s) {
        deleteIndex := deleteIndex + [i];
      }
    }
    assert proxies[..|proxies|] == proxies;
    var newValues: seq<Yaml> := [];
    for i := 0 to |proxies|
      invariant newValues == Kept(proxies[..i], matches)
    {
      KeptStep(proxies, i, matches);
      var deleted := Contains(deleteIndex, i);
      if !deleted {
        newValues := newValues + [proxies[i]];
      }
    }
    return Some(newValues);
  }

  /** One proxy group after the filter: a mapping with a "proxies" list
      gets the filtered list; a mapping whose "proxies" is not a list
      panics at the length print; any other group is left alone. None is
      a panic. */
  function FilteredGroup(g: Yaml, matches: string -> bool): Option<Yaml>
  {
    if g.YMap? && Proxies in g.entries then
      var v := g.entries[Proxies];
      if v.YList? then
        if AllStrings(v.items) then Some(YMap(g.entries[Proxies := YList(Kept(v.items, matches))]))
        else None
      else None
    else Some(g)
  }

  /** The proxy groups after the filter, or None for a panic. */
  function FilteredGroups(groups: seq<Yaml>, matches: string -> bool): Option<seq<Yaml>>
  {
    if groups == [] then Some([])
    else match (FilteredGroups(groups[..|groups| - 1], matches), FilteredGroup(groups[|groups| - 1], matches))
      case (Some(init), Some(last)) => Some(init + [last])
      case _ => None
  }

  /** The filter touches only "proxies" lists: every group keeps its place,
      groups that are not mappings or lack "proxies" are unchanged, and a
      mapping keeps all its other keys. */
  lemma {:induction false} FilteredGroupsShape(groups: seq<Yaml>, matches: string -> bool)
    requires FilteredGroups(groups, matches).Some?
    ensures var r := FilteredGroups(groups, matches).value;
      |r| == |groups|
      && forall i :: 0 <= i < |groups| ==>
           (!(groups[i].YMap? && Proxies in groups[i].entries) ==> r[i] == groups[i])
           && (groups[i].YMap? && Proxies in groups[i].entries ==>
                 r[i].YMap? && r[i].entries.Keys == groups[i].entries.Keys
                 && (forall k :: k in r[i].entries && k != Proxies ==> r[i].entries[k] == groups[i].entries[k])
                 && groups[i].entries[Proxies].YList?
                 && r[i].entries[Proxies] == YList(Kept(groups[i].entries[Proxies].items, matches)))
  {
    if groups != [] {
      FilteredGroupsShape(groups[..|groups| - 1], matches);
    }
  }

  /** The loop over the proxy groups, updating each group's mapping in
      place; None is a panic. */
  method FilterGroups(groups: seq<Yaml>, matches: string -> bool) returns (r: Option<seq<Yaml>>)
    ensures r == FilteredGroups(groups, matches)
  {
    var out: seq<Yaml> := [];
    for i := 0 to |groups|
      invariant FilteredGroups(groups[..i], matches) == Some(out)
    {
      assert groups[..i + 1][..i] == groups[..i];
      var g := groups[i];
      if g.YMap? && Proxies in g.entries {
        var v1 := g.entries[Proxies];
        if !v1.YList? {
          assert FilteredGroup(g, matches).None?;
          FilteredGroupsNone(groups, i + 1, matches);
          return None;
        }
        var kept := FilterProxies(v1.items, matches);
        if kept.None? {
          FilteredGroupsNone(groups, i + 1, matches);
          return None;
        }
        g := YMap(g.entries[Proxies := YList(kept.value)]);
      }
      out := out + [g];
    }
    assert groups[..|groups|] == groups;
    return Some(out);
  }

  /** A panic in some group is a panic of the whole loop. */
  lemma {:induction false} FilteredGroupsNone(groups: seq<Yaml>, n: int, matches: string -> bool)
    requires 0 < n <= |groups| && FilteredGroup(groups[n - 1], matches).None?
    ensures FilteredGroups(groups, matches).None?
  {
    if n < |groups| {
      FilteredGroupsNone(groups[..|groups| - 1], n, matches);
    }
  }

  /** ClashHandler. A document that does not decode gives the empty
      string. When "proxy-groups" is a list its groups are filtered, and
      any other value leaves the document as decoded; the result is the
      document encoded again. */
  method ClashHandler(config: string, matches: string -> bool,
                      decode: string -> Option<map<string, Yaml>>, encode: map<string, Yaml> -> string)
    returns (r: Outcome)
    ensures decode(config).None? ==> r == Text("")
    ensures decode(config).Some? ==>
      var doc := decode(config).value;
      if ProxyGroups in doc && doc[ProxyGroups].YList? then
        match FilteredGroups(doc[ProxyGroups].items, matches)
        case None => r == Panic
        case Some(gs) => r == Text(encode(doc[ProxyGroups := YList(gs)]))
      else r == Text(encode(doc))
  {
    var resultMap := decode(config);
    if resultMap.None? {
      return Text("");
    }
    var doc := resultMap.value;
    if ProxyGroups in doc && doc[ProxyGroups].YList? {
      var groups := FilterGroups(doc[ProxyGroups].items, matches);
      if groups.None? {
        return Panic;
      }
      doc := doc[ProxyGroups := YList(groups.value)];
    }
    return Text(encode(doc));
  }
}
