/** Merchant-name canonicalisation (build_canonical_map_embeddings and
    normalize_transactions_with_embeddings). Display names are trimmed, a
    blank name reads as "Unknown", and the distinct names are clustered in
    one greedy pass: each name joins the most similar existing cluster when
    that similarity reaches the threshold, and otherwise opens a cluster
    labelled with itself. The sentence-embedding model is abstracted: the
    vector of a name is `embed(name)`, the similarity of two vectors is
    `sim`, and the centroid update on a join is `merge`. */
module Canonicalizer {
  import opened Wrappers
  import opened Transactions

  // ---------------------------------------------------------------------
  // Display names

  /** Python's `str.isspace` on one character. */
  predicate IsSpace(c: char)
  {
    c == ' ' || '\t' <= c <= '\r' || '\U{1c}' <= c <= '\U{1f}' ||
    c == '\U{85}' || c == '\U{a0}' || c == '\U{1680}' ||
    '\U{2000}' <= c <= '\U{200a}' || c == '\U{2028}' || c == '\U{2029}' ||
    c == '\U{202f}' || c == '\U{205f}' || c == '\U{3000}'
  }

  /** The string without its leading whitespace. */
  function TrimLeft(s: string): string
  {
    if s != [] && IsSpace(s[0]) then TrimLeft(s[1..]) else s
  }

  /** TrimLeft drops a prefix of whitespace and stops at a non-space. */
  lemma {:induction false} TrimLeftSpec(s: string)
    ensures |TrimLeft(s)| <= |s| && TrimLeft(s) == s[|s| - |TrimLeft(s)|..]
    ensures forall k :: 0 <= k < |s| - |TrimLeft(s)| ==> IsSpace(s[k])
    ensures TrimLeft(s) != [] ==> !IsSpace(TrimLeft(s)[0])
  {
    if s != [] && IsSpace(s[0]) {
      TrimLeftSpec(s[1..]);
    }
  }

  /** The string without its trailing whitespace. */
  function TrimRight(s: string): string
  {
    if s != [] && IsSpace(s[|s| - 1]) then TrimRight(s[..|s| - 1]) else s
  }

  /** TrimRight drops a suffix of whitespace and stops at a non-space. */
  lemma {:induction false} TrimRightSpec(s: string)
    ensures |TrimRight(s)| <= |s| && TrimRight(s) == s[..|TrimRight(s)|]
    ensures forall k :: |TrimRight(s)| <= k < |s| ==> IsSpace(s[k])
    ensures TrimRight(s) != [] ==> !IsSpace(TrimRight(s)[|TrimRight(s)| - 1])
  {
    if s != [] && IsSpace(s[|s| - 1]) {
      TrimRightSpec(s[..|s| - 1]);
    }
  }

  /** Python's `str.strip()` with no argument. */
  function Strip(s: string): string
  {
    TrimRight(TrimLeft(s))
  }

  /** Strip keeps a contiguous block of the string, removes only whitespace
      around it, and the block neither starts nor ends with whitespace. */
  lemma StripSpec(s: string)
    ensures exists i, j ::
      (0 <= i <= j <= |s| && Strip(s) == s[i..j] &&
       (forall k :: 0 <= k < i ==> IsSpace(s[k])) &&
       (forall k :: j <= k < |s| ==> IsSpace(s[k])))
    ensures Strip(s) != [] ==> !IsSpace(Strip(s)[0]) && !IsSpace(Strip(s)[|Strip(s)| - 1])
  {
    var l := TrimLeft(s);
    var r := TrimRight(l);
    TrimLeftSpec(s);
    TrimRightSpec(l);
    var i := |s| - |l|;
    var j := i + |r|;
    assert r == s[i..j];
    forall k | j <= k < |s| ensures IsSpace(s[k]) {
      assert s[k] == l[k - i];
    }
    if r != [] {
      assert r[0] == l[0];
    }
  }

  /** Stripping twice is stripping once. */
  lemma StripIdempotent(s: string)
    ensures Strip(Strip(s)) == Strip(s)
  {
    StripSpec(s);
    var r := Strip(s);
    if r != [] {
      assert TrimLeft(r) == r;
      assert TrimRight(r) == r;
    }
  }

  /** The name a transaction is known by: its `name`, stripped, with a
      missing or blank name read as "Unknown". */
  function DisplayName(name: Option<string>): string
  {
    var s := Strip(if name.Some? then name.value else "");
    if s == "" then "Unknown" else s
  }

  /** A display name is never empty and has no surrounding whitespace; it
      is "Unknown" for a missing or all-whitespace name and otherwise the
      name with its surrounding whitespace removed. */
  lemma DisplayNameSpec(name: Option<string>)
    ensures var r := DisplayName(name);
      r != [] && !IsSpace(r[0]) && !IsSpace(r[|r| - 1])
    ensures name.None? ==> DisplayName(name) == "Unknown"
    ensures name.Some? && (forall k :: 0 <= k < |name.value| ==> IsSpace(name.value[k])) ==>
      DisplayName(name) == "Unknown"
    ensures name.Some? && (exists k :: 0 <= k < |name.value| && !IsSpace(name.value[k])) ==>
      exists i, j :: 0 <= i < j <= |name.value| && DisplayName(name) == name.value[i..j] &&
        (forall k :: 0 <= k < i ==> IsSpace(name.value[k])) &&
        (forall k :: j <= k < |name.value| ==> IsSpace(name.value[k]))
  {
    var v := if name.Some? then name.value else "";
    StripSpec(v);
    var i, j :| 0 <= i <= j <= |v| && Strip(v) == v[i..j] &&
      (forall k :: 0 <= k < i ==> IsSpace(v[k])) &&
      (forall k :: j <= k < |v| ==> IsSpace(v[k]));
    if Strip(v) == "" {
      assert DisplayName(name) == "Unknown";
      assert "Unknown"[0] == 'U' && "Unknown"[6] == 'n';
      if name.Some? && exists k :: 0 <= k < |name.value| && !IsSpace(name.value[k]) {
        assert false;
      }
    } else if name.Some? && forall k :: 0 <= k < |name.value| ==> IsSpace(name.value[k]) {
      assert false;
    }
  }

  /** "Unknown" has no surrounding whitespace. */
  lemma UnknownStripped()
    ensures Strip("Unknown") == "Unknown"
  {
    StripFixed("Unknown");
  }

  /** A string with no whitespace at either end is its own strip. */
  lemma StripFixed(s: string)
    requires s != [] ==> !IsSpace(s[0]) && !IsSpace(s[|s| - 1])
    ensures Strip(s) == s
  {
  }

  /** A display name is its own display name. */
  lemma DisplayNameIdempotent(name: Option<string>)
    ensures DisplayName(Some(DisplayName(name))) == DisplayName(name)
  {
    StripIdempotent(if name.Some? then name.value else "");
    UnknownStripped();
  }

  /** The display names of the transactions, in order. */
  function RawNames(ts: seq<Transaction>): (r: seq<string>)
    ensures |r| == |ts| && forall i :: 0 <= i < |ts| ==> r[i] == DisplayName(ts[i].name)
  {
    seq(|ts|, i requires 0 <= i < |ts| => DisplayName(ts[i].name))
  }

  // ---------------------------------------------------------------------
  // Distinct names in first-occurrence order

  predicate Distinct(s: seq<string>)
  {
    forall i, j :: 0 <= i < j < |s| ==> s[i] != s[j]
  }

  /** The position of the first occurrence of x in s. */
  function FirstIndex(s: seq<string>, x: string): (k: nat)
    requires x in s
    ensures k < |s| && s[k] == x && forall j :: 0 <= j < k ==> s[j] != x
  {
    var p := s[..|s| - 1];
    if x in p then FirstIndex(p, x) else |s| - 1
  }

  /** Python's `list(dict.fromkeys(s))`: each element once, at the place of
      its first occurrence. */
  function Dedup(s: seq<string>): (r: seq<string>)
    ensures Distinct(r)
    ensures forall x :: x in r <==> x in s
  {
    if s == [] then []
    else
      var p := Dedup(s[..|s| - 1]);
      var x := s[|s| - 1];
      if x in p then p else p + [x]
  }

  /** Dedup lists the elements in the order of their first occurrence. */
  lemma {:induction false} DedupOrder(s: seq<string>)
    ensures forall i, j :: 0 <= i < j < |Dedup(s)| ==>
      FirstIndex(s, Dedup(s)[i]) < FirstIndex(s, Dedup(s)[j])
  {
    if s != [] {
      var p := s[..|s| - 1];
      var x := s[|s| - 1];
      DedupOrder(p);
      var d, r := Dedup(p), Dedup(s);
      forall i | 0 <= i < |d| ensures FirstIndex(s, d[i]) == FirstIndex(p, d[i]) {
        assert d[i] in p;
      }
      forall i, j | 0 <= i < j < |r| ensures FirstIndex(s, r[i]) < FirstIndex(s, r[j]) {
        if j < |d| {
          assert r[i] == d[i] && r[j] == d[j];
        } else {
          assert r[j] == x && x !in p && r[i] == d[i];
        }
      }
    }
  }

  // ---------------------------------------------------------------------
  // Greedy clustering

  /** The state of the clustering pass: the cluster labels, their centroid
      vectors (in parallel), and the name-to-label map built so far. */
  datatype Clustering<V> = Clustering(labels: seq<string>, vecs: seq<V>, canon: map<string, string>)

  /** The similarity of each centroid to a vector (the matrix product at
      the heart of the pass). */
  function Sims<V>(vecs: seq<V>, vec: V, sim: (V, V) -> real): (r: seq<real>)
    ensures |r| == |vecs| && forall i :: 0 <= i < |vecs| ==> r[i] == sim(vecs[i], vec)
  {
    seq(|vecs|, i requires 0 <= i < |vecs| => sim(vecs[i], vec))
  }

  /** numpy's `argmax`: the first position of the greatest value. */
  function ArgMax(s: seq<real>): (r: nat)
    requires s != []
    ensures r < |s|
    ensures forall i :: 0 <= i < |s| ==> s[i] <= s[r]
    ensures forall i :: 0 <= i < r ==> s[i] < s[r]
  {
    if |s| == 1 then 0
    else
      var k := ArgMax(s[..|s| - 1]);
      if s[|s| - 1] > s[k] then |s| - 1 else k
  }

  /** One step of the pass: the first name opens the first cluster; later
      names join the most similar cluster when its similarity reaches the
      threshold (its centroid is merged with the name's vector) and open a
      new cluster labelled with themselves otherwise. */
  function Assign<V>(c: Clustering<V>, name: string, vec: V, sim: (V, V) -> real,
                     merge: (V, V) -> V, threshold: real): Clustering<V>
    requires |c.labels| == |c.vecs|
  {
    if c.vecs == [] then
      Clustering(c.labels + [name], c.vecs + [vec], c.canon[name := name])
    else
      var sims := Sims(c.vecs, vec, sim);
      var j := ArgMax(sims);
      if sims[j] >= threshold then
        Clustering(c.labels, c.vecs[j := merge(c.vecs[j], vec)], c.canon[name := c.labels[j]])
      else
        Clustering(c.labels + [name], c.vecs + [vec], c.canon[name := name])
  }

  /** The pass over a list of names. */
  function ClusterAll<V>(names: seq<string>, embed: string -> V, sim: (V, V) -> real,
                         merge: (V, V) -> V, threshold: real): (c: Clustering<V>)
    ensures |c.labels| == |c.vecs|
  {
    if names == [] then Clustering([], [], map[])
    else
      var last := names[|names| - 1];
      Assign(ClusterAll(names[..|names| - 1], embed, sim, merge, threshold), last, embed(last), sim, merge, threshold)
  }

  /** The similarity a name must reach to join a cluster, unless the caller
      gives another. */
  const DefaultSimThreshold: real := 0.85

  /** The map the source returns: empty for no transactions, otherwise the
      map built by the pass over the distinct display names. */
  function CanonicalMap<V>(ts: seq<Transaction>, embed: string -> V, sim: (V, V) -> real,
                           merge: (V, V) -> V, threshold: real := DefaultSimThreshold): map<string, string>
  {
    var uniq := Dedup(RawNames(ts));
    if uniq == [] then map[] else ClusterAll(uniq, embed, sim, merge, threshold).canon
  }

  /** A step joins an existing cluster exactly when there is one and the
      first most similar cluster reaches the threshold. A join keeps the
      labels, changes only that cluster's centroid and maps the name to that
      cluster's label; otherwise the name becomes a new label, with its own
      vector as centroid, mapped to itself. */
  lemma AssignSpec<V>(c: Clustering<V>, name: string, vec: V, sim: (V, V) -> real,
                      merge: (V, V) -> V, threshold: real, a: Clustering<V>)
    requires |c.labels| == |c.vecs|
    requires a == Assign(c, name, vec, sim, merge, threshold)
    ensures |a.labels| == |a.vecs|
    ensures a.labels == c.labels <==>
      c.vecs != [] && sim(c.vecs[ArgMax(Sims(c.vecs, vec, sim))], vec) >= threshold
    ensures a.labels == c.labels ==>
      c.vecs != [] && |a.vecs| == |c.vecs| &&
      a.canon == c.canon[name := c.labels[ArgMax(Sims(c.vecs, vec, sim))]] &&
      a.vecs[ArgMax(Sims(c.vecs, vec, sim))] == merge(c.vecs[ArgMax(Sims(c.vecs, vec, sim))], vec) &&
      forall i :: 0 <= i < |c.vecs| && i != ArgMax(Sims(c.vecs, vec, sim)) ==> a.vecs[i] == c.vecs[i]
    ensures a.labels != c.labels ==>
      a.labels == c.labels + [name] && a.vecs == c.vecs + [vec] && a.canon == c.canon[name := name] &&
      forall i :: 0 <= i < |c.vecs| ==> sim(c.vecs[i], vec) < threshold
  {
    if c.vecs != [] {
      var sims := Sims(c.vecs, vec, sim);
      var j := ArgMax(sims);
      assert sims[j] == sim(c.vecs[j], vec);
      if sims[j] < threshold {
        assert |a.labels| == |c.labels| + 1;
        forall i | 0 <= i < |c.vecs| ensures sim(c.vecs[i], vec) < threshold {
          assert sims[i] <= sims[j];
        }
      }
    }
  }

  /** What the pass keeps true over a list of distinct names: labels and
      centroids run in parallel, and the labels and the map are well
      formed (LabelsWellFormed). */
  ghost predicate Consistent<V>(c: Clustering<V>, names: seq<string>)
  {
    |c.labels| == |c.vecs| && LabelsWellFormed(c.labels, c.canon, names)
  }

  /** Labels are distinct and no more numerous than the names; the map's
      keys are exactly the names; every label maps to itself and every name
      maps to a label; a name's label is a name at the same or an earlier
      position; the first name labels the first cluster. */
  ghost predicate LabelsWellFormed(labels: seq<string>, canon: map<string, string>, names: seq<string>)
  {
    |labels| <= |names| &&
    Distinct(labels) &&
    KeysAre(canon, names) &&
    SelfMapped(labels, canon) &&
    LabelsEarlier(canon, names) &&
    (names != [] ==> labels != [] && labels[0] == names[0])
  }

  /** The keys of the map are the names. */
  ghost predicate KeysAre(canon: map<string, string>, names: seq<string>)
  {
    forall n :: n in canon <==> n in names
  }

  /** Every label maps to itself and every key maps to a label. */
  predicate SelfMapped(labels: seq<string>, canon: map<string, string>)
  {
    (forall l :: l in labels ==> l in canon && canon[l] == l) &&
    (forall n :: n in canon ==> canon[n] in labels)
  }

  lemma KeysAppend(canon: map<string, string>, names: seq<string>, name: string, target: string)
    requires KeysAre(canon, names)
    ensures KeysAre(canon[name := target], names + [name])
  {
  }

  /** A new name joining the cluster of label j. */
  lemma SelfMappedJoin(labels: seq<string>, canon: map<string, string>, name: string, j: nat)
    requires SelfMapped(labels, canon) && name !in labels && j < |labels|
    ensures SelfMapped(labels, canon[name := labels[j]])
  {
  }

  /** A new name opening its own cluster. */
  lemma SelfMappedOpen(labels: seq<string>, canon: map<string, string>, name: string)
    requires SelfMapped(labels, canon) && name !in labels
    ensures SelfMapped(labels + [name], canon[name := name])
  {
  }

  /** A name's label is a name at the same or an earlier position, for
      every name of the list. */
  predicate LabelsEarlier(canon: map<string, string>, names: seq<string>)
  {
    forall q :: 0 <= q < |names| ==> names[q] in canon && canon[names[q]] in names[..q + 1]
  }

  /** Appending a name with a label from the extended list keeps labels
      earlier. */
  lemma LabelsEarlierAppend(canon: map<string, string>, names: seq<string>, name: string, target: string)
    requires LabelsEarlier(canon, names) && name !in names && target in names + [name]
    ensures LabelsEarlier(canon[name := target], names + [name])
  {
    var ns, m := names + [name], canon[name := target];
    forall q | 0 <= q < |ns| ensures ns[q] in m && m[ns[q]] in ns[..q + 1] {
      if q < |names| {
        assert ns[q] == names[q];
        assert ns[..q + 1] == names[..q + 1];
      } else {
        assert ns[..q + 1] == ns;
      }
    }
  }

  /** A new name opening its own cluster keeps the labels well formed. */
  lemma OpenWellFormed(labels: seq<string>, canon: map<string, string>, names: seq<string>, name: string)
    requires LabelsWellFormed(labels, canon, names) && name !in names
    ensures LabelsWellFormed(labels + [name], canon[name := name], names + [name])
  {
    forall l | l in labels ensures l in names {
      assert l in canon;
    }
    DistinctAppend(labels, name);
    SelfMappedOpen(labels, canon, name);
    KeysAppend(canon, names, name, name);
    LabelsEarlierAppend(canon, names, name, name);
    if names != [] {
      assert (names + [name])[0] == names[0];
    } else {
      assert labels == [];
    }
  }

  /** A new name joining the cluster of label j keeps the labels well
      formed. */
  lemma JoinWellFormed(labels: seq<string>, canon: map<string, string>, names: seq<string>, name: string, j: nat)
    requires LabelsWellFormed(labels, canon, names) && name !in names && j < |labels|
    ensures LabelsWellFormed(labels, canon[name := labels[j]], names + [name])
  {
    forall l | l in labels ensures l in names {
      assert l in canon;
    }
    assert labels[j] in names by {
      assert labels[j] in canon;
    }
    SelfMappedJoin(labels, canon, name, j);
    KeysAppend(canon, names, name, labels[j]);
    LabelsEarlierAppend(canon, names, name, labels[j]);
    assert (names + [name])[0] == names[0];
  }

  /** One step keeps the pass consistent when the name is new. */
  lemma AssignConsistent<V>(c: Clustering<V>, names: seq<string>, name: string, vec: V,
                            sim: (V, V) -> real, merge: (V, V) -> V, threshold: real)
    requires Consistent(c, names) && name !in names
    ensures Consistent(Assign(c, name, vec, sim, merge, threshold), names + [name])
  {
    var a := Assign(c, name, vec, sim, merge, threshold);
    AssignSpec(c, name, vec, sim, merge, threshold, a);
    if a.labels == c.labels {
      JoinWellFormed(c.labels, c.canon, names, name, ArgMax(Sims(c.vecs, vec, sim)));
    } else {
      OpenWellFormed(c.labels, c.canon, names, name);
    }
  }

  lemma DistinctAppend(s: seq<string>, x: string)
    requires Distinct(s) && x !in s
    ensures Distinct(s + [x])
  {
  }

  /** The pass over distinct names is consistent. */
  lemma {:induction false} ClusterAllConsistent<V>(names: seq<string>, embed: string -> V,
                                                  sim: (V, V) -> real, merge: (V, V) -> V, threshold: real)
    requires Distinct(names)
    ensures Consistent(ClusterAll(names, embed, sim, merge, threshold), names)
  {
    if names != [] {
      var p, last := names[..|names| - 1], names[|names| - 1];
      assert names == p + [last];
      assert last !in p;
      ClusterAllConsistent(p, embed, sim, merge, threshold);
      AssignConsistent(ClusterAll(p, embed, sim, merge, threshold), p, last, embed(last), sim, merge, threshold);
    }
  }

  // ---------------------------------------------------------------------
  // What the canonical map promises

  /** The map built from transactions is well formed over their distinct
      display names, with the labels of the pass. */
  lemma MapWellFormed<V>(ts: seq<Transaction>, embed: string -> V, sim: (V, V) -> real,
                         merge: (V, V) -> V, threshold: real)
    ensures var uniq := Dedup(RawNames(ts));
      LabelsWellFormed(ClusterAll(uniq, embed, sim, merge, threshold).labels,
                       CanonicalMap(ts, embed, sim, merge, threshold), uniq)
  {
    ClusterAllConsistent(Dedup(RawNames(ts)), embed, sim, merge, threshold);
  }

  /** No transactions, empty map; and the map is empty only then. */
  lemma CanonicalMapEmpty<V>(ts: seq<Transaction>, embed: string -> V, sim: (V, V) -> real,
                             merge: (V, V) -> V, threshold: real)
    ensures CanonicalMap(ts, embed, sim, merge, threshold) == map[] <==> ts == []
  {
    var uniq := Dedup(RawNames(ts));
    MapWellFormed(ts, embed, sim, merge, threshold);
    if ts != [] {
      assert RawNames(ts)[0] in uniq;
      assert uniq[0] in CanonicalMap(ts, embed, sim, merge, threshold);
    }
  }

  /** The keys of the map are exactly the display names of the
      transactions. */
  lemma CanonicalMapDomain<V>(ts: seq<Transaction>, embed: string -> V, sim: (V, V) -> real,
                              merge: (V, V) -> V, threshold: real)
    ensures forall n :: n in CanonicalMap(ts, embed, sim, merge, threshold) <==>
      exists i :: 0 <= i < |ts| && DisplayName(ts[i].name) == n
  {
    MapKeys(ts, embed, sim, merge, threshold);
    RawNamesMembers(ts);
  }

  /** The keys of the map are the display names listed by RawNames. */
  lemma MapKeys<V>(ts: seq<Transaction>, embed: string -> V, sim: (V, V) -> real,
                   merge: (V, V) -> V, threshold: real)
    ensures forall n :: n in CanonicalMap(ts, embed, sim, merge, threshold) <==> n in RawNames(ts)
  {
    MapWellFormed(ts, embed, sim, merge, threshold);
    assert KeysAre(CanonicalMap(ts, embed, sim, merge, threshold), Dedup(RawNames(ts)));
  }

  /** A name is listed by RawNames exactly when it is some transaction's
      display name. */
  lemma RawNamesMembers(ts: seq<Transaction>)
    ensures forall n :: n in RawNames(ts) <==> exists i :: 0 <= i < |ts| && DisplayName(ts[i].name) == n
  {
    var raw := RawNames(ts);
    forall n | n in raw ensures exists i :: 0 <= i < |ts| && DisplayName(ts[i].name) == n {
      var i :| 0 <= i < |raw| && raw[i] == n;
    }
  }

  /** Every value of the map is a key that maps to itself, so mapping twice
      is mapping once; every value is itself a display name. */
  lemma CanonicalMapIdempotent<V>(ts: seq<Transaction>, embed: string -> V, sim: (V, V) -> real,
                                  merge: (V, V) -> V, threshold: real)
    ensures var m := CanonicalMap(ts, embed, sim, merge, threshold);
      forall n :: n in m ==> m[n] in m && m[m[n]] == m[n] && m[n] in RawNames(ts)
  {
    MapWellFormed(ts, embed, sim, merge, threshold);
  }

  /** A name's label is a name at the same or an earlier position of the
      distinct names; in particular the first name maps to itself. */
  lemma CanonicalMapEarlier<V>(ts: seq<Transaction>, embed: string -> V, sim: (V, V) -> real,
                               merge: (V, V) -> V, threshold: real)
    ensures var uniq, m := Dedup(RawNames(ts)), CanonicalMap(ts, embed, sim, merge, threshold);
      forall q :: 0 <= q < |uniq| ==> uniq[q] in m && m[uniq[q]] in uniq[..q + 1]
    ensures var uniq, m := Dedup(RawNames(ts)), CanonicalMap(ts, embed, sim, merge, threshold);
      uniq != [] ==> m[uniq[0]] == uniq[0]
  {
    var uniq := Dedup(RawNames(ts));
    MapEarlier(ts, embed, sim, merge, threshold);
    if uniq != [] {
      assert uniq[..1] == [uniq[0]];
    }
  }

  lemma MapEarlier<V>(ts: seq<Transaction>, embed: string -> V, sim: (V, V) -> real,
                      merge: (V, V) -> V, threshold: real)
    ensures LabelsEarlier(CanonicalMap(ts, embed, sim, merge, threshold), Dedup(RawNames(ts)))
  {
    MapWellFormed(ts, embed, sim, merge, threshold);
  }

  /** The labels of the pass are distinct display names, one per cluster,
      and there are no more of them than distinct names. */
  lemma ClusterLabels<V>(ts: seq<Transaction>, embed: string -> V, sim: (V, V) -> real,
                         merge: (V, V) -> V, threshold: real)
    ensures var uniq := Dedup(RawNames(ts));
      var c := ClusterAll(uniq, embed, sim, merge, threshold);
      |c.labels| == |c.vecs| <= |uniq| && Distinct(c.labels) &&
      (forall l :: l in c.labels ==> l in RawNames(ts)) &&
      (uniq != [] ==> c.labels[0] == uniq[0])
  {
    var uniq := Dedup(RawNames(ts));
    var c := ClusterAll(uniq, embed, sim, merge, threshold);
    MapWellFormed(ts, embed, sim, merge, threshold);
    forall l | l in c.labels ensures l in RawNames(ts) {
      assert l in CanonicalMap(ts, embed, sim, merge, threshold);
    }
  }

  // ---------------------------------------------------------------------
  // The procedure

  /** The vector of every name (one batch call to the embedding model). */
  function EmbedAll<V>(names: seq<string>, embed: string -> V): (r: seq<V>)
    ensures |r| == |names| && forall i :: 0 <= i < |names| ==> r[i] == embed(names[i])
  {
    seq(|names|, i requires 0 <= i < |names| => embed(names[i]))
  }

  /** build_canonical_map_embeddings: one pass over the distinct display
      names, growing the labels and centroids and filling the map. */
  method BuildCanonicalMap<V>(transactions: seq<Transaction>, embed: string -> V, sim: (V, V) -> real,
                              merge: (V, V) -> V, simThreshold: real := DefaultSimThreshold)
    returns (nameToCanon: map<string, string>)
    ensures nameToCanon == CanonicalMap(transactions, embed, sim, merge, simThreshold)
  {
    var rawNames := RawNames(transactions);
    var uniqNames := Dedup(rawNames);
    if |uniqNames| == 0 {
      return map[];
    }
    var uniqVecs := EmbedAll(uniqNames, embed);
    var canonLabels: seq<string> := [];
    var canonVecs: seq<V> := [];
    nameToCanon := map[];
    for i := 0 to |uniqNames|
      invariant canonLabels == ClusterAll(uniqNames[..i], embed, sim, merge, simThreshold).labels
      invariant canonVecs == ClusterAll(uniqNames[..i], embed, sim, merge, simThreshold).vecs
      invariant nameToCanon == ClusterAll(uniqNames[..i], embed, sim, merge, simThreshold).canon
    {
      var name := uniqNames[i];
      var vec := uniqVecs[i];
      ghost var prev := ClusterAll(uniqNames[..i], embed, sim, merge, simThreshold);
      ghost var next := Assign(prev, name, vec, sim, merge, simThreshold);
      assert uniqNames[..i + 1][..i] == uniqNames[..i];
      assert ClusterAll(uniqNames[..i + 1], embed, sim, merge, simThreshold) == next;
      if canonVecs == [] {
        canonLabels := canonLabels + [name];
        canonVecs := canonVecs + [vec];
        nameToCanon := nameToCanon[name := name];
      } else {
        var sims := Sims(canonVecs, vec, sim);
        var j := ArgMax(sims);
        var maxSim := sims[j];
        if maxSim >= simThreshold {
          nameToCanon := nameToCanon[name := canonLabels[j]];
          canonVecs := canonVecs[j := merge(canonVecs[j], vec)];
        } else {
          canonLabels := canonLabels + [name];
          canonVecs := canonVecs + [vec];
          nameToCanon := nameToCanon[name := name];
        }
      }
    }
    assert uniqNames[..|uniqNames|] == uniqNames;
  }

  // ---------------------------------------------------------------------
  // Normalising transactions

  /** The new name of a transaction: the map's label for its display name,
      or the display name itself when the map has no entry. */
  function Canonicalize(canonMap: map<string, string>, name: Option<string>): string
  {
    var raw := DisplayName(name);
    if raw in canonMap then canonMap[raw] else raw
  }

  /** A map whose values are display names that map to themselves. */
  predicate Closed(canonMap: map<string, string>)
  {
    forall n :: n in canonMap ==>
      canonMap[n] in canonMap && canonMap[canonMap[n]] == canonMap[n] &&
      DisplayName(Some(canonMap[n])) == canonMap[n]
  }

  /** The map built from any transactions is closed. */
  lemma CanonicalMapClosed<V>(ts: seq<Transaction>, embed: string -> V, sim: (V, V) -> real,
                              merge: (V, V) -> V, threshold: real)
    ensures Closed(CanonicalMap(ts, embed, sim, merge, threshold))
  {
    var m := CanonicalMap(ts, embed, sim, merge, threshold);
    CanonicalMapIdempotent(ts, embed, sim, merge, threshold);
    forall n | n in m ensures DisplayName(Some(m[n])) == m[n] {
      var i :| 0 <= i < |ts| && RawNames(ts)[i] == m[n];
      DisplayNameIdempotent(ts[i].name);
    }
  }

  /** Under a closed map, renaming a renamed transaction changes nothing. */
  lemma CanonicalizeIdempotent(canonMap: map<string, string>, name: Option<string>)
    requires Closed(canonMap)
    ensures Canonicalize(canonMap, Some(Canonicalize(canonMap, name))) == Canonicalize(canonMap, name)
  {
    var raw := DisplayName(name);
    if raw !in canonMap {
      DisplayNameIdempotent(name);
    }
  }

  /** The name after k renamings (a record listed k times is renamed k
      times). */
  function Renamed(canonMap: map<string, string>, name: Option<string>, k: nat): Option<string>
  {
    if k == 0 then name else Some(Canonicalize(canonMap, Renamed(canonMap, name, k - 1)))
  }

  /** Under a closed map, renaming any positive number of times is
      renaming once. */
  lemma {:induction false} RenamedOnce(canonMap: map<string, string>, name: Option<string>, k: nat)
    requires Closed(canonMap) && k >= 1
    ensures Renamed(canonMap, name, k) == Some(Canonicalize(canonMap, name))
  {
    assert Renamed(canonMap, name, k) == Some(Canonicalize(canonMap, Renamed(canonMap, name, k - 1)));
    if k > 1 {
      RenamedOnce(canonMap, name, k - 1);
      CanonicalizeIdempotent(canonMap, name);
    } else {
      assert Renamed(canonMap, name, 0) == name;
    }
  }

  /** Extending a prefix by one element adds one occurrence of it. */
  lemma CountStep<T>(s: seq<T>, i: nat)
    requires i < |s|
    ensures multiset(s[..i + 1]) == multiset(s[..i]) + multiset{s[i]}
  {
    assert s[..i + 1] == s[..i] + [s[i]];
  }

  /** normalize_transactions_with_embeddings: rewrites the name of every
      listed record in place and returns the same list. A record listed k
      times is renamed k times; every other field is kept. */
  method NormalizeTransactions(transactions: seq<Record>, canonMap: map<string, string>)
    returns (result: seq<Record>)
    modifies transactions
    ensures result == transactions
    ensures forall t :: t in transactions ==>
      t.txn == old(t.txn).(name := Renamed(canonMap, old(t.txn).name, multiset(transactions)[t]))
  {
    for i := 0 to |transactions|
      invariant forall t :: t in transactions ==>
        t.txn == old(t.txn).(name := Renamed(canonMap, old(t.txn).name, multiset(transactions[..i])[t]))
    {
      var t := transactions[i];
      ghost var before := multiset(transactions[..i]);
      ghost var after := multiset(transactions[..i + 1]);
      CountStep(transactions, i);
      ghost var prior := t.txn.name;
      var raw := DisplayName(t.txn.name);
      t.txn := t.txn.(name := Some(if raw in canonMap then canonMap[raw] else raw));
      assert t.txn.name == Some(Canonicalize(canonMap, prior));
      assert after[t] == before[t] + 1;
      forall u | u in transactions
        ensures u.txn == old(u.txn).(name := Renamed(canonMap, old(u.txn).name, after[u]))
      {
        if u != t {
          assert after[u] == before[u];
        }
      }
    }
    assert transactions[..|transactions|] == transactions;
    return transactions;
  }
}
