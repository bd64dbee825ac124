/** Namespace events move no serial; when such a change can be seen. */
module Namespaces {
  import opened Text
  import opened Parse
  import opened Backend
  import opened Records
  import opened Agreement
  import opened Views

  /** The snapshots differ in the cluster's namespaces only. */
  ghost predicate NamespacesApart(k: Kube, m: Kube) {
    m == k.(clusterNamespaces := m.clusterNamespaces)
  }

  predicate NamedByLabels(k: Kube) {
    forall ns :: ns in k.clusterNamespaces ==> ExactLabel(ns)
  }

  /** The name of a namespace exists exactly when the namespace is exposed. */
  lemma NamespaceNameIff(k: Kube, ns: string)
    requires ExactLabel(ns)
    ensures ProperName([ns, SVC])
    ensures RecordsFor(k, [ns, SVC], []).err == if k.NamespaceExposed(ns) then NoError else NsNotExposed
  {
    var name := LowerAll([ns, SVC]);
    assert Lower(SVC) == SVC;
    assert name == [ns, SVC] && TrimZone(name, []) == [ns, SVC];
  }

  /** A change of the cluster's namespaces changes some answer exactly when it adds or removes one that
      the namespaces option admits. */
  lemma NamespacesSeenIff(k: Kube, m: Kube)
    requires NamespacesApart(k, m) && NamedByLabels(k) && NamedByLabels(m)
    ensures !SameAnswers(k, m) <==>
            exists ns :: k.ConfiguredNamespace(ns) && (ns in k.clusterNamespaces) != (ns in m.clusterNamespaces)
  {
    if ns :| k.ConfiguredNamespace(ns) && (ns in k.clusterNamespaces) != (ns in m.clusterNamespaces) {
      NamespaceNameIff(k, ns);
      NamespaceNameIff(m, ns);
      assert RecordsFor(k, [ns, SVC], []) != RecordsFor(m, [ns, SVC], []);
    } else {
      forall ns
        ensures k.NamespaceExposed(ns) == m.NamespaceExposed(ns)
      {
        assert k.ConfiguredNamespace(ns) ==> (ns in k.clusterNamespaces) == (ns in m.clusterNamespaces);
      }
      assert ReadsLike(m, Visible(k));
      ReadsAlike(k, m, Visible(k));
    }
  }
}
