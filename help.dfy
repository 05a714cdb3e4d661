/** The FAQ page of client/src/pages/Help.tsx: expanding and collapsing sections, and the
    search over titles, questions and answers. */
module Help {
  import opened Seqs
  import opened Text

  datatype Question = Question(question: string, answer: string)

  datatype Section = Section(id: string, title: string, questions: seq<Question>)

  /** `toggleSection(sectionId)` (Help.tsx:21-27): a listed id is removed everywhere it
      occurs, an unlisted one is appended. */
  function Toggle(expanded: seq<string>, id: string): (r: seq<string>)
    ensures id in r <==> id !in expanded
    ensures forall x :: x != id ==> (x in r <==> x in expanded)
    ensures id !in expanded ==> r == expanded + [id]
  {
    if id in expanded then RemoveAll(expanded, id) else expanded + [id]
  }

  /** Toggling keeps the list free of duplicates. */
  lemma ToggleNoDuplicates(expanded: seq<string>, id: string)
    requires NoDuplicates(expanded)
    ensures NoDuplicates(Toggle(expanded, id))
  {
    if id in expanded {
      RemoveNoDuplicates(expanded, id);
    }
  }

  /** Toggling twice restores a list that did not hold the id; with the id present and no
      duplicates it moves the id to the end. */
  lemma ToggleTwice(expanded: seq<string>, id: string)
    ensures id !in expanded ==> Toggle(Toggle(expanded, id), id) == expanded
    ensures id in expanded ==> Toggle(Toggle(expanded, id), id) == RemoveAll(expanded, id) + [id]
  {
    if id !in expanded {
      RemoveAllConcat(expanded, [id], id);
      RemoveAbsent(expanded, id);
      assert RemoveAll([id], id) == [];
    }
  }

  /** A section is open when its id is listed (`isExpanded`, Help.tsx:238). */
  predicate IsExpanded(expanded: seq<string>, s: Section) {
    s.id in expanded
  }

  /** The search text occurs, ignoring case, in the title or in some question or answer. */
  predicate Shown(s: Section, query: string) {
    || Matches(s.title, query)
    || exists q :: q in s.questions && (Matches(q.question, query) || Matches(q.answer, query))
  }

  /** `filteredFaqs` (Help.tsx:166-174). */
  function FilteredFaqs(sections: seq<Section>, query: string): (r: seq<Section>)
    ensures |r| <= |sections|
    ensures forall s :: s in r <==> s in sections && Shown(s, query)
  {
    Filter(sections, (s: Section) => Shown(s, query))
  }

  /** The search keeps the sections' order, and an empty search keeps them all. */
  lemma FilteredFaqsOrder(a: seq<Section>, b: seq<Section>, query: string)
    ensures FilteredFaqs(a + b, query) == FilteredFaqs(a, query) + FilteredFaqs(b, query)
    ensures FilteredFaqs(a, "") == a
  {
    FilterConcat(a, b, (s: Section) => Shown(s, query));
    forall s | s in a ensures Shown(s, "") {
      ContainsEmpty(Lower(s.title));
    }
    FilterKeepsAll(a, (s: Section) => Shown(s, ""));
  }
}
