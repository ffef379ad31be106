/**
 Resource ids of the graph (internal/services/clusterResourceServices.go): printed
 as kind/namespace/name with the kind in lower case, and split back.
 */
module Ids {
  import opened Text

  const KINDS := ["Pod", "Deployment", "ReplicaSet", "StatefulSet", "DaemonSet", "Service", "Ingress",
                  "ConfigMap", "Secret", "ServiceAccount", "PersistentVolumeClaim", "PersistentVolume", "StorageClass"]

  function LowerChar(c: char): char {
    if 'A' <= c <= 'Z' then ((c as int) + 32) as char else c
  }

  function ToLower(s: string): (t: string)
    ensures |t| == |s|
  {
    seq(|s|, i requires 0 <= i < |s| => LowerChar(s[i]))
  }

  /** Each capital becomes the small letter as far into the alphabet; everything else stays. */
  lemma LowersLetters(s: string, i: nat)
    requires i < |s|
    ensures 'A' <= s[i] <= 'Z' ==> 'a' <= ToLower(s)[i] <= 'z' && ToLower(s)[i] as int - 'a' as int == s[i] as int - 'A' as int
    ensures !('A' <= s[i] <= 'Z') ==> ToLower(s)[i] == s[i]
  {
  }

  function ResourceId(kind: string, namespace: string, name: string): string {
    ToLower(kind) + "/" + namespace + "/" + name
  }

  /** The table from lower-case kinds: -1 for a kind the graph does not draw. */
  function KindIndex(lower: string, from: nat): (i: int)
    requires from <= |KINDS|
    ensures -1 <= i < |KINDS|
    ensures i >= 0 ==> ToLower(KINDS[i]) == lower
    ensures i < 0 ==> forall k :: from <= k < |KINDS| ==> ToLower(KINDS[k]) != lower
    decreases |KINDS| - from
  {
    if from == |KINDS| then -1
    else if ToLower(KINDS[from]) == lower then from
    else KindIndex(lower, from + 1)
  }

  datatype Parsed = Unknown | Parsed(kind: string, namespace: string, name: string)

  /** strings.SplitN(id, "/", 3), and the kind's own spelling. */
  function ParseResourceId(id: string): (p: Parsed) {
    var a := Index(id, "/", 0);
    if a < 0 then Unknown
    else
      var b := Index(id, "/", a + 1);
      if b < 0 then Unknown
      else
        var k := KindIndex(id[..a], 0);
        if k < 0 then Unknown else Parsed(KINDS[k], id[a + 1..b], id[b + 1..])
  }

  predicate NoSlash(s: string) {
    forall i :: 0 <= i < |s| ==> s[i] != '/'
  }

  lemma KindsDiffer(i: nat, j: nat)
    requires i < |KINDS| && j < |KINDS| && ToLower(KINDS[i]) == ToLower(KINDS[j])
    ensures i == j
  {
    assert |KINDS[i]| == |ToLower(KINDS[i])| == |ToLower(KINDS[j])| == |KINDS[j]|;
    assert LowerChar(KINDS[i][0]) == ToLower(KINDS[i])[0] == ToLower(KINDS[j])[0] == LowerChar(KINDS[j][0]);
  }

  lemma FirstSlash(a: string, rest: string, from: nat)
    requires from <= |a| && forall i :: from <= i < |a| ==> a[i] != '/'
    ensures Index(a + "/" + rest, "/", from) == |a|
  {
    var s := a + "/" + rest;
    assert s[|a|..|a| + 1] == "/" && OccursAt(s, "/", |a|);
    forall i | from <= i < |a|
      ensures !OccursAt(s, "/", i)
    {
      assert a[i] == s[i] == s[i..i + 1][0];
    }
  }

  /** A kind's name is letters only, so it holds no slash. */
  lemma KindIsWord(i: nat)
    requires i < |KINDS|
    ensures NoSlash(KINDS[i])
  {
    hide ToLower;
    if i < 4 {
      assert NoSlash("Pod") && NoSlash("Deployment") && NoSlash("ReplicaSet") && NoSlash("StatefulSet");
    } else if i < 8 {
      assert NoSlash("DaemonSet") && NoSlash("Service") && NoSlash("Ingress") && NoSlash("ConfigMap");
    } else {
      assert NoSlash("Secret") && NoSlash("ServiceAccount") && NoSlash("PersistentVolumeClaim");
      assert NoSlash("PersistentVolume") && NoSlash("StorageClass");
    }
  }

  lemma KindFound(kind: string)
    requires kind in KINDS
    ensures KindIndex(ToLower(kind), 0) >= 0 && KINDS[KindIndex(ToLower(kind), 0)] == kind
    ensures NoSlash(ToLower(kind))
  {
    var i :| 0 <= i < |KINDS| && KINDS[i] == kind;
    KindsDiffer(KindIndex(ToLower(kind), 0), i);
    KindIsWord(i);
    assert forall k :: 0 <= k < |kind| ==> ToLower(kind)[k] == LowerChar(kind[k]);
  }

  /** Round trip: an id splits back into what it was printed from, for every kind the
      graph draws and every namespace; the name may even hold slashes. */
  lemma ParsePrinted(kind: string, namespace: string, name: string)
    requires kind in KINDS && NoSlash(namespace)
    ensures ParseResourceId(ResourceId(kind, namespace, name)) == Parsed(kind, namespace, name)
  {
    hide Index, KindIndex, ToLower, OccursAt;
    var lower, id := ToLower(kind), ResourceId(kind, namespace, name);
    KindFound(kind);
    assert id == lower + "/" + (namespace + "/" + name);
    FirstSlash(lower, namespace + "/" + name, 0);
    var head := lower + "/" + namespace;
    assert id == head + "/" + name;
    FirstSlash(head, name, |lower| + 1);
    Splits(lower, namespace, name);
  }

  lemma Splits(a: string, b: string, c: string)
    ensures var s := a + "/" + b + "/" + c;
            s[..|a|] == a && s[|a| + 1..|a| + 1 + |b|] == b && s[|a| + 1 + |b| + 1..] == c
  {
  }

  /** Edge ids. */
  function EdgeId(source: string, target: string): string {
    source + "->" + target
  }

  /** No object name holds '>', so an edge id determines both ends. */
  lemma EdgeIdInjective(s1: string, t1: string, s2: string, t2: string)
    requires '>' !in s1 && '>' !in s2 && EdgeId(s1, t1) == EdgeId(s2, t2)
    ensures s1 == s2 && t1 == t2
  {
    var e := EdgeId(s1, t1);
    assert e[|s1| + 1] == '>' && e[|s2| + 1] == '>' && e[|s1|] == '-' && e[|s2|] == '-';
    assert forall k :: 0 <= k < |s1| ==> e[k] == s1[k];
    assert forall k :: 0 <= k < |s2| ==> e[k] == s2[k];
    assert |s1| == |s2|;
    assert s1 == e[..|s1|] && s2 == e[..|s2|];
    assert t1 == e[|s1| + 2..] && t2 == e[|s2| + 2..];
  }
}
