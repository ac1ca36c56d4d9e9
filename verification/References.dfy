/** References, each held by exactly one holder, and their reference counts. */
module References {
  function To<H, C(==)>(refs: map<H, C>, c: C): set<H> {
    set h | h in refs && refs[h] == c
  }

  /** The count of every target is the number of its holders. */
  ghost predicate Counted<H(!new), C(!new)>(refs: map<H, C>, counts: map<C, nat>) {
    && (forall h :: h in refs ==> refs[h] in counts)
    && (forall c :: c in counts ==> counts[c] == |To(refs, c)|)
  }

  lemma Added<H(!new), C(!new)>(refs: map<H, C>, counts: map<C, nat>, h: H, c: C)
    requires Counted(refs, counts) && h !in refs && c in counts
    ensures Counted(refs[h := c], counts[c := counts[c] + 1])
  {
    var refs' := refs[h := c];
    assert To(refs', c) == To(refs, c) + {h};
    forall d | d in counts && d != c ensures To(refs', d) == To(refs, d) {}
  }

  lemma Removed<H(!new), C(!new)>(refs: map<H, C>, counts: map<C, nat>, h: H)
    requires Counted(refs, counts) && h in refs
    ensures refs[h] in counts && counts[refs[h]] > 0
    ensures Counted(refs - {h}, counts[refs[h] := counts[refs[h]] - 1])
  {
    var refs', c := refs - {h}, refs[h];
    assert h in To(refs, c);
    assert To(refs', c) == To(refs, c) - {h};
    forall d | d in counts && d != c ensures To(refs', d) == To(refs, d) {}
  }

  lemma Moved<H(!new), C(!new)>(refs: map<H, C>, counts: map<C, nat>, h: H, k: H)
    requires Counted(refs, counts) && h in refs && k !in refs
    ensures Counted((refs - {h})[k := refs[h]], counts)
  {
    var c := refs[h];
    Removed(refs, counts, h);
    Added(refs - {h}, counts[c := counts[c] - 1], k, c);
    assert counts[c := counts[c] - 1][c := counts[c]] == counts;
  }

  lemma Introduced<H(!new), C(!new)>(refs: map<H, C>, counts: map<C, nat>, h: H, c: C)
    requires Counted(refs, counts) && c !in counts && h !in refs
    ensures Counted(refs[h := c], counts[c := 1])
  {
    var counts' := counts[c := 0];
    assert To(refs, c) == {};
    Added(refs, counts', h, c);
    assert counts'[c := 1] == counts[c := 1];
  }
}
