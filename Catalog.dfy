/** The sign catalog: four lesson categories of signs, their lookups, the search filter
    and the mock fetch service. */
module Catalog {
  import opened Wrappers
  import opened Text

  /** One sign; the media fields (image, video, instructions) are not modelled. */
  datatype Sign = Sign(id: string, word: string, description: string, category: string, difficulty: string)

  /** One lesson category: its object key, its header texts and its signs. */
  datatype Category = Category(key: string, title: string, description: string, signs: seq<Sign>)

  const CommonSigns: seq<Sign> := [
    Sign("hello", "Hello", "A greeting gesture used to say hi", "greetings", "beginner"),
    Sign("thank-you", "Thank You", "Express gratitude with a handshape near the mouth", "greetings", "beginner"),
    Sign("please", "Please", "A polite request gesture with hand on chest", "greetings", "beginner"),
    Sign("sorry", "Sorry", "Apologetic gesture with hand circling on chest", "greetings", "beginner"),
    Sign("yes", "Yes", "Affirmative gesture with a nodding fist", "responses", "beginner"),
    Sign("no", "No", "Negative gesture with fingers closing", "responses", "beginner"),
    Sign("water", "Water", "Gesture representing drinking water", "basic-needs", "beginner"),
    Sign("eat", "Eat", "Gesture mimicking eating food", "basic-needs", "beginner")
  ]

  const AdvancedSigns: seq<Sign> := [
    Sign("understand", "Understand", "Gesture indicating comprehension", "emotions", "intermediate"),
    Sign("remember", "Remember", "Gesture for recalling memory", "mental-actions", "intermediate"),
    Sign("important", "Important", "Gesture emphasizing significance", "concepts", "intermediate"),
    Sign("question", "Question", "Gesture for asking or inquiring", "communication", "intermediate"),
    Sign("explain", "Explain", "Gesture for clarification or explanation", "communication", "intermediate"),
    Sign("different", "Different", "Gesture indicating contrast or difference", "concepts", "intermediate"),
    Sign("decision", "Decision", "Gesture for making a choice", "mental-actions", "intermediate"),
    Sign("experience", "Experience", "Gesture for lived knowledge", "concepts", "intermediate")
  ]

  const IconicSigns: seq<Sign> := [
    Sign("tree", "Tree", "Gesture mimicking a tree's shape", "nature", "beginner"),
    Sign("house", "House", "Gesture outlining a house structure", "places", "beginner"),
    Sign("car", "Car", "Gesture mimicking driving", "transportation", "beginner"),
    Sign("airplane", "Airplane", "Gesture representing an airplane flying", "transportation", "beginner"),
    Sign("book", "Book", "Gesture mimicking opening a book", "objects", "beginner"),
    Sign("telephone", "Telephone", "Gesture for holding a phone", "communication", "beginner"),
    Sign("computer", "Computer", "Gesture representing typing on a keyboard", "technology", "intermediate"),
    Sign("music", "Music", "Gesture for musical rhythm", "arts", "intermediate")
  ]

  const NamesSigns: seq<Sign> := [
    Sign("a-letter", "Letter A", "First letter of the alphabet in fingerspelling", "alphabet", "beginner"),
    Sign("b-letter", "Letter B", "Second letter of the alphabet in fingerspelling", "alphabet", "beginner"),
    Sign("c-letter", "Letter C", "Third letter of the alphabet in fingerspelling", "alphabet", "beginner"),
    Sign("my-name", "My Name", "Phrase to introduce your name", "introduction", "intermediate"),
    Sign("family", "Family", "Sign representing a family unit", "relationships", "intermediate"),
    Sign("friend", "Friend", "Sign indicating friendship", "relationships", "intermediate"),
    Sign("teacher", "Teacher", "Sign for an educator", "professions", "intermediate"),
    Sign("student", "Student", "Sign for a learner", "professions", "intermediate")
  ]

  /** The four lesson categories in declaration order. */
  const Data: seq<Category> := [
    Category("common", "Learn Common Hand Signs", "Essential everyday signs for beginners", CommonSigns),
    Category("advanced", "Learn Advanced Hand Signs", "Complex signs for intermediate learners", AdvancedSigns),
    Category("iconic", "Learn Iconic Hand Signs", "Visual and iconic signs that represent their meaning", IconicSigns),
    Category("names", "Learn Names with Hand Signs", "Fingerspelling and name signs for personal identification", NamesSigns)
  ]

  /** The catalog entry under `key`, as the object lookup `signLanguageData[key]`. */
  function FindCategory(cats: seq<Category>, key: string): (r: Option<Category>)
    ensures r.Some? ==> r.value in cats && r.value.key == key
    ensures r.None? <==> forall c | c in cats :: c.key != key
  {
    if cats == [] then None
    else if cats[0].key == key then Some(cats[0])
    else FindCategory(cats[1..], key)
  }

  function LookupCategory(key: string): Option<Category> {
    FindCategory(Data, key)
  }

  /** `getSignsByCategory`: the category's signs, or the empty list for an unknown key. */
  function SignsByCategory(key: string): seq<Sign> {
    match LookupCategory(key)
    case Some(c) => c.signs
    case None => []
  }

  /** `getAllCategories`: the keys in declaration order. */
  function AllCategories(): seq<string> {
    seq(|Data|, i requires 0 <= i < |Data| => Data[i].key)
  }

  /** All signs, category after category in declaration order. */
  function Flatten(cats: seq<Category>): (r: seq<Sign>)
    ensures forall c, s | c in cats && s in c.signs :: s in r
    ensures forall s | s in r :: exists c | c in cats :: s in c.signs
  {
    if cats == [] then []
    else
      var init := cats[..|cats| - 1];
      var rest := Flatten(init);
      assert forall c | c in init :: c in cats;
      assert forall c | c in cats :: c in init || c == cats[|cats| - 1];
      rest + cats[|cats| - 1].signs
  }

  function AllSigns(): seq<Sign> {
    Flatten(Data)
  }

  function Ids(signs: seq<Sign>): (r: seq<string>)
    ensures |r| == |signs| && forall i | 0 <= i < |signs| :: r[i] == signs[i].id
  {
    if signs == [] then [] else [signs[0].id] + Ids(signs[1..])
  }

  function Words(signs: seq<Sign>): (r: seq<string>)
    ensures |r| == |signs| && forall i | 0 <= i < |signs| :: r[i] == signs[i].word
  {
    if signs == [] then [] else [signs[0].word] + Words(signs[1..])
  }

  /** `signs.find(s => s.id === id)`: the first sign with that id. */
  function FirstWithId(signs: seq<Sign>, id: string): (r: Option<Sign>)
    ensures r.None? <==> forall s | s in signs :: s.id != id
    ensures r.Some? ==> exists k | 0 <= k < |signs| :: signs[k] == r.value && r.value.id == id &&
                                                     forall m | 0 <= m < k :: signs[m].id != id
  {
    if signs == [] then None
    else if signs[0].id == id then Some(signs[0])
    else
      var r := FirstWithId(signs[1..], id);
      assert forall s | s in signs :: s == signs[0] || s in signs[1..];
      if r.Some? then
        var k :| 0 <= k < |signs[1..]| && signs[1..][k] == r.value && r.value.id == id &&
                 forall m | 0 <= m < k :: signs[1..][m].id != id;
        assert signs[k + 1] == r.value;
        assert forall m | 1 <= m < k + 1 :: signs[m] == signs[1..][m - 1];
        r
      else r
  }

  lemma {:induction false} FirstWithIdAppend(a: seq<Sign>, b: seq<Sign>, id: string)
    ensures FirstWithId(a + b, id) == if FirstWithId(a, id).Some? then FirstWithId(a, id) else FirstWithId(b, id)
  {
    if a == [] {
      assert a + b == b;
    } else {
      assert (a + b)[1..] == a[1..] + b;
      FirstWithIdAppend(a[1..], b, id);
    }
  }

  /** `getSignById`: the for-of loop over the categories (`Object.values(signLanguageData)`,
      passed as `cats`) with an early return on the first hit. */
  method SignById(cats: seq<Category>, id: string) returns (r: Option<Sign>)
    ensures r == FirstWithId(Flatten(cats), id)
    ensures r.None? <==> forall s | s in Flatten(cats) :: s.id != id
    ensures r.Some? ==> r.value.id == id && r.value in Flatten(cats)
  {
    var c := 0;
    while c < |cats|
      invariant 0 <= c <= |cats|
      invariant FirstWithId(Flatten(cats[..c]), id).None?
    {
      FlattenSnoc(cats, c);
      FirstWithIdAppend(Flatten(cats[..c]), cats[c].signs, id);
      var found := FirstWithId(cats[c].signs, id);
      if found.Some? {
        FirstHitStands(cats, c + 1, id);
        return found;
      }
      c := c + 1;
    }
    assert cats[..c] == cats;
    return None;
  }

  /** Taking one more category appends its signs. */
  lemma FlattenSnoc(cats: seq<Category>, k: nat)
    requires k < |cats|
    ensures Flatten(cats[..k + 1]) == Flatten(cats[..k]) + cats[k].signs
  {
    assert cats[..k + 1][..k] == cats[..k];
  }

  /** Once a prefix of the categories holds a sign with `id`, later categories do not matter. */
  lemma {:induction false} FirstHitStands(cats: seq<Category>, c: nat, id: string)
    requires 0 < c <= |cats| && FirstWithId(Flatten(cats[..c]), id).Some?
    ensures FirstWithId(Flatten(cats), id) == FirstWithId(Flatten(cats[..c]), id)
    decreases |cats| - c
  {
    if c < |cats| {
      FlattenSnoc(cats, c);
      FirstWithIdAppend(Flatten(cats[..c]), cats[c].signs, id);
      FirstHitStands(cats, c + 1, id);
    } else {
      assert cats[..c] == cats;
    }
  }

  /** The search predicate: the lower-cased word, description or sub-category contains the
      lower-cased query. */
  predicate Matches(s: Sign, query: string) {
    var q := Lower(query);
    Contains(Lower(s.word), q) || Contains(Lower(s.description), q) || Contains(Lower(s.category), q)
  }

  /** `allSigns.filter(...)` with the search predicate. */
  function FilterMatches(signs: seq<Sign>, query: string): (r: seq<Sign>)
    ensures |r| <= |signs|
    ensures forall s :: s in r <==> s in signs && Matches(s, query)
  {
    if signs == [] then []
    else
      var rest := FilterMatches(signs[1..], query);
      assert forall s | s in signs :: s == signs[0] || s in signs[1..];
      if Matches(signs[0], query) then [signs[0]] + rest else rest
  }

  /** The filter keeps catalog order: filtering a concatenation filters each part in turn. */
  lemma {:induction false} FilterMatchesAppend(a: seq<Sign>, b: seq<Sign>, query: string)
    ensures FilterMatches(a + b, query) == FilterMatches(a, query) + FilterMatches(b, query)
  {
    if a == [] {
      assert a + b == b;
    } else {
      var head := if Matches(a[0], query) then [a[0]] else [];
      assert (a + b)[0] == a[0];
      assert (a + b)[1..] == a[1..] + b;
      assert FilterMatches(a + b, query) == head + FilterMatches(a[1..] + b, query);
      assert FilterMatches(a, query) == head + FilterMatches(a[1..], query);
      FilterMatchesAppend(a[1..], b, query);
    }
  }

  /** `searchSigns`: collect every category's signs with `push`, then filter. */
  method SearchSigns(query: string) returns (r: seq<Sign>)
    ensures r == FilterMatches(AllSigns(), query)
    ensures forall s :: s in r <==> s in AllSigns() && Matches(s, query)
  {
    var allSigns: seq<Sign> := [];
    for c := 0 to |Data|
      invariant allSigns == Flatten(Data[..c])
    {
      assert Data[..c + 1][..c] == Data[..c];
      allSigns := allSigns + Data[c].signs;
    }
    assert Data[..|Data|] == Data;
    r := FilterMatches(allSigns, query);
  }

  /** The end index `Array.prototype.slice(0, limit)` uses: a negative limit counts from the end. */
  function SliceEnd(len: nat, limit: int): (r: nat)
    ensures r <= len
    ensures 0 <= limit ==> r == if limit < len then limit else len
    ensures limit < 0 ==> r == if len + limit > 0 then len + limit else 0
  {
    if limit < 0 then (if len + limit > 0 then len + limit else 0)
    else if limit < len then limit else len
  }

  /** `SignLanguageAPI.fetchSignData(category, limit = 10)`; `None` is an omitted limit.
      An unknown category is the thrown `Error`, carried as its message. */
  function FetchSignData(key: string, limit: Option<int>): (r: Result<Category, string>)
    ensures r.Failure? <==> forall c | c in Data :: c.key != key
    ensures r.Failure? ==> r.error == "Category '" + key + "' not found"
    ensures r.Success? ==>
      var c := LookupCategory(key).value;
      && r.value == c.(signs := r.value.signs)
      && |r.value.signs| <= |c.signs| && r.value.signs == c.signs[..|r.value.signs|]
      && (limit.GetOr(10) >= 0 ==> |r.value.signs| == if limit.GetOr(10) < |c.signs| then limit.GetOr(10) else |c.signs|)
  {
    match LookupCategory(key)
    case None => Failure("Category '" + key + "' not found")
    case Some(c) => Success(c.(signs := c.signs[..SliceEnd(|c.signs|, limit.GetOr(10))]))
  }

  /** The catalog's shape: four categories with distinct keys, listed in declaration order,
      eight signs each. */
  lemma CatalogShape()
    ensures |Data| == 4 && AllCategories() == ["common", "advanced", "iconic", "names"]
    ensures NoDuplicates(AllCategories())
    ensures forall c | c in Data :: |c.signs| == 8
  {
  }

  lemma CategorySize(c: Category)
    requires c in Data
    ensures |c.signs| == 8
  {
    CatalogShape();
  }

  /** The keys of the four categories differ. */
  lemma KeysApart()
    ensures forall i, j | 0 <= i < j < |Data| :: Data[i].key != Data[j].key
  {
  }

  /** The lookup finds the first category with the key. */
  lemma {:induction false} FindAt(cats: seq<Category>, key: string, k: nat)
    requires k < |cats| && cats[k].key == key
    requires forall m | 0 <= m < k :: cats[m].key != key
    ensures FindCategory(cats, key) == Some(cats[k])
    decreases k
  {
    if k > 0 {
      assert cats[0].key != key;
      FindAt(cats[1..], key, k - 1);
    }
  }

  /** Each category is found under its own key. */
  lemma LookupEach()
    ensures forall k | 0 <= k < |Data| :: LookupCategory(Data[k].key) == Some(Data[k])
  {
    KeysApart();
    forall k | 0 <= k < |Data| ensures LookupCategory(Data[k].key) == Some(Data[k]) {
      FindAt(Data, Data[k].key, k);
    }
  }

  /** `getSignsByCategory` gives each category's own signs under its key, and nothing for a key no
      category has. */
  lemma SignsByCategoryFacts(key: string)
    ensures (forall c | c in Data :: c.key != key) ==> SignsByCategory(key) == []
    ensures forall k | 0 <= k < |Data| :: SignsByCategory(Data[k].key) == Data[k].signs
  {
    LookupEach();
  }

  /** The whole catalog in order, one category after another. */
  lemma AllSignsInOrder()
    ensures AllSigns() == CommonSigns + AdvancedSigns + IconicSigns + NamesSigns
  {
    assert Flatten(Data[..1]) == CommonSigns by { assert Data[..1][..0] == []; }
    assert Flatten(Data[..2]) == CommonSigns + AdvancedSigns by { assert Data[..2][..1] == Data[..1]; }
    assert Flatten(Data[..3]) == CommonSigns + AdvancedSigns + IconicSigns by { assert Data[..3][..2] == Data[..2]; }
    assert Data[..3] == Data[..|Data| - 1];
  }
}
