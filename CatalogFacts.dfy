/** Facts about the catalog's contents: sign ids are unique across the catalog, and ids and words
    are unique within each category. Each literal check sits in a lemma of its own and is stated
    position by position, so that the verifier compares one small list at a time. */
module CatalogFacts {
  import opened Wrappers
  import opened Catalog

  /** No two signs of the list share an id. */
  predicate IdsDistinct(s: seq<Sign>) {
    forall i, j | 0 <= i < j < |s| :: s[i].id != s[j].id
  }

  /** No two signs of the list share a word. */
  predicate WordsDistinct(s: seq<Sign>) {
    forall i, j | 0 <= i < j < |s| :: s[i].word != s[j].word
  }

  /** No sign of `a` shares an id with a sign of `b`. */
  predicate IdsApart(a: seq<Sign>, b: seq<Sign>) {
    forall i, j | 0 <= i < |a| && 0 <= j < |b| :: a[i].id != b[j].id
  }

  lemma IdsColumnDistinct(s: seq<Sign>)
    requires IdsDistinct(s)
    ensures NoDuplicates(Ids(s))
  {
    var ids := Ids(s);
    forall i, j | 0 <= i < j < |ids| ensures ids[i] != ids[j] {
      assert ids[i] == s[i].id && ids[j] == s[j].id;
    }
  }

  lemma WordsColumnDistinct(s: seq<Sign>)
    requires WordsDistinct(s)
    ensures NoDuplicates(Words(s))
  {
    var words := Words(s);
    forall i, j | 0 <= i < j < |words| ensures words[i] != words[j] {
      assert words[i] == s[i].word && words[j] == s[j].word;
    }
  }

  /** Two lists with distinct ids and no id in common join into a list with distinct ids. */
  lemma JoinApart(a: seq<Sign>, b: seq<Sign>)
    requires IdsDistinct(a) && IdsDistinct(b) && IdsApart(a, b)
    ensures IdsDistinct(a + b)
  {
    forall i, j | 0 <= i < j < |a + b| ensures (a + b)[i].id != (a + b)[j].id {
      if j < |a| {
        assert (a + b)[i] == a[i] && (a + b)[j] == a[j];
      } else if i >= |a| {
        assert (a + b)[i] == b[i - |a|] && (a + b)[j] == b[j - |a|];
      } else {
        assert (a + b)[i] == a[i] && (a + b)[j] == b[j - |a|];
      }
    }
  }

  lemma ApartAppend(a: seq<Sign>, b: seq<Sign>, c: seq<Sign>)
    requires IdsApart(a, c) && IdsApart(b, c)
    ensures IdsApart(a + b, c)
  {
    forall i, j | 0 <= i < |a + b| && 0 <= j < |c| ensures (a + b)[i].id != c[j].id {
      if i < |a| {
        assert (a + b)[i] == a[i];
      } else {
        assert (a + b)[i] == b[i - |a|];
      }
    }
  }

  /** Within each category no two signs share an id or a word, so a question's options come
      from distinct signs and carry distinct words. */
  lemma CategoryDistinct(c: Category)
    requires c in Data
    ensures NoDuplicates(Ids(c.signs)) && NoDuplicates(Words(c.signs))
  {
    var s := c.signs;
    assert s == CommonSigns || s == AdvancedSigns || s == IconicSigns || s == NamesSigns;
    if s == CommonSigns {
      CommonIdsDistinct();
      CommonWordsDistinct();
    } else if s == AdvancedSigns {
      AdvancedIdsDistinct();
      AdvancedWordsDistinct();
    } else if s == IconicSigns {
      IconicIdsDistinct();
      IconicWordsDistinct();
    } else {
      NamesIdsDistinct();
      NamesWordsDistinct();
    }
    IdsColumnDistinct(s);
    WordsColumnDistinct(s);
  }

  /** Sign ids are distinct across the whole catalog. */
  lemma SignIdsUnique()
    ensures NoDuplicates(Ids(AllSigns()))
  {
    var c, a, i, n := CommonSigns, AdvancedSigns, IconicSigns, NamesSigns;
    AllSignsInOrder();
    CommonIdsDistinct();
    AdvancedIdsDistinct();
    IconicIdsDistinct();
    NamesIdsDistinct();
    CommonAdvancedApart();
    CommonIconicApart();
    CommonNamesApart();
    AdvancedIconicApart();
    AdvancedNamesApart();
    IconicNamesApart();
    JoinApart(c, a);
    ApartAppend(c, a, i);
    JoinApart(c + a, i);
    ApartAppend(c, a, n);
    ApartAppend(c + a, i, n);
    JoinApart(c + a + i, n);
    IdsColumnDistinct(c + a + i + n);
  }

  lemma CommonIdsDistinct() ensures IdsDistinct(CommonSigns) {}

  lemma CommonWordsDistinct() ensures WordsDistinct(CommonSigns) {}

  lemma AdvancedIdsDistinct() ensures IdsDistinct(AdvancedSigns) {}

  lemma AdvancedWordsDistinct() ensures WordsDistinct(AdvancedSigns) {}

  lemma IconicIdsDistinct() ensures IdsDistinct(IconicSigns) {}

  lemma IconicWordsDistinct() ensures WordsDistinct(IconicSigns) {}

  lemma NamesIdsDistinct() ensures IdsDistinct(NamesSigns) {}

  lemma NamesWordsDistinct() ensures WordsDistinct(NamesSigns) {}

  lemma CommonAdvancedApart() ensures IdsApart(CommonSigns, AdvancedSigns) {}

  lemma CommonIconicApart() ensures IdsApart(CommonSigns, IconicSigns) {}

  lemma CommonNamesApart() ensures IdsApart(CommonSigns, NamesSigns) {}

  lemma AdvancedIconicApart() ensures IdsApart(AdvancedSigns, IconicSigns) {}

  lemma AdvancedNamesApart() ensures IdsApart(AdvancedSigns, NamesSigns) {}

  lemma IconicNamesApart() ensures IdsApart(IconicSigns, NamesSigns) {}
}
