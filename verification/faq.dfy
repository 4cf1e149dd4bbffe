/** The tabbed FAQ: a row of category tabs of which the selected one is
    marked, the questions of the selected category listed in order, and an
    open/closed toggle owned by each listed question. */
module Faq {
  import opened Optional

  /** A tab: an entry of the `categories` object, in its entry order. */
  datatype Category = Category(key: string, caption: string)

  datatype Question = Question(question: string, answer: string)

  /** An entry of the `faqData` object: a category key and its questions. */
  datatype Topic = Topic(category: string, questions: seq<Question>)

  /** Object keys are distinct. */
  predicate DistinctKeys(cats: seq<Category>) {
    forall i, j :: 0 <= i < j < |cats| ==> cats[i].key != cats[j].key
  }

  predicate DistinctTopics(data: seq<Topic>) {
    forall i, j :: 0 <= i < j < |data| ==> data[i].category != data[j].category
  }

  /** The selected category (None for `undefined`), and the open flag of each
      listed question, in list order. */
  datatype FaqState = FaqState(selected: Option<string>, open: seq<bool>)

  /** The first category key, or `undefined` when there are no categories. */
  function InitialSelection(cats: seq<Category>): (r: Option<string>)
    ensures |cats| > 0 ==> r == Some(cats[0].key)
    ensures |cats| == 0 ==> r == None
  {
    if |cats| > 0 then Some(cats[0].key) else None
  }

  /** Which tabs are drawn as selected, one flag per tab: a tab is marked
      exactly when its key is the selection. */
  function TabMarks(cats: seq<Category>, selected: Option<string>): (m: seq<bool>)
    ensures |m| == |cats|
    ensures forall i :: 0 <= i < |cats| ==> (m[i] <==> selected == Some(cats[i].key))
  {
    seq(|cats|, i requires 0 <= i < |cats| => selected == Some(cats[i].key))
  }

  /** Number of set flags. */
  function CountMarked(m: seq<bool>): nat {
    if |m| == 0 then 0 else (if m[0] then 1 else 0) + CountMarked(m[1..])
  }

  /** The questions listed for a selection: those of every `faqData` entry
      whose key equals it, in entry order and then question order. */
  function Shown(data: seq<Topic>, selected: Option<string>): seq<Question> {
    if |data| == 0 then []
    else (if selected == Some(data[0].category) then data[0].questions else []) + Shown(data[1..], selected)
  }

  /** The list as mounted for a selection: one closed item per listed question. */
  function Mount(data: seq<Topic>, selected: Option<string>): (st: FaqState)
    ensures st.selected == selected
    ensures |st.open| == |Shown(data, selected)|
    ensures forall i :: 0 <= i < |st.open| ==> !st.open[i]
  {
    FaqState(selected, seq(|Shown(data, selected)|, _ => false))
  }

  /** The item states match the listed questions one for one. */
  predicate Consistent(st: FaqState, data: seq<Topic>) {
    |st.open| == |Shown(data, st.selected)|
  }

  /** The FAQ as first rendered: the first category selected, every item closed. */
  function Init(cats: seq<Category>, data: seq<Topic>): (st: FaqState)
    ensures Consistent(st, data)
    ensures |cats| > 0 ==> st.selected == Some(cats[0].key)
    ensures forall i :: 0 <= i < |st.open| ==> !st.open[i]
  {
    Mount(data, InitialSelection(cats))
  }

  /** A tab clicked. The selection becomes its key. Re-selecting the current
      key changes nothing; selecting another key replaces the list, which is
      keyed by category, so its items are mounted afresh, all closed. */
  function SelectTab(st: FaqState, data: seq<Topic>, key: string): (r: FaqState)
    ensures r.selected == Some(key)
    ensures st.selected == Some(key) ==> r == st
    ensures st.selected != Some(key) ==> forall i :: 0 <= i < |r.open| ==> !r.open[i]
    ensures Consistent(st, data) ==> Consistent(r, data)
  {
    if st.selected == Some(key) then st else Mount(data, Some(key))
  }

  /** Item `i` clicked: only that item's open flag flips. */
  function ToggleItem(st: FaqState, i: nat): (r: FaqState)
    requires i < |st.open|
    ensures r.selected == st.selected && |r.open| == |st.open|
    ensures r.open[i] == !st.open[i]
    ensures forall j :: 0 <= j < |st.open| && j != i ==> r.open[j] == st.open[j]
  {
    st.(open := st.open[i := !st.open[i]])
  }

  // ---------------------------------------------------------------------------
  // Properties
  // ---------------------------------------------------------------------------

  lemma {:induction false} CountSingle(m: seq<bool>, i: nat)
    requires i < |m| && m[i]
    requires forall j :: 0 <= j < |m| && j != i ==> !m[j]
    ensures CountMarked(m) == 1
    decreases |m|
  {
    if i == 0 {
      CountNone(m[1..]);
    } else {
      CountSingle(m[1..], i - 1);
    }
  }

  lemma {:induction false} CountNone(m: seq<bool>)
    requires forall j :: 0 <= j < |m| ==> !m[j]
    ensures CountMarked(m) == 0
    decreases |m|
  {
    if |m| > 0 {
      CountNone(m[1..]);
    }
  }

  /** With distinct keys, selecting a tab's key marks exactly that one tab. */
  lemma ExactlyOneTabMarked(cats: seq<Category>, i: nat)
    requires DistinctKeys(cats) && i < |cats|
    ensures CountMarked(TabMarks(cats, Some(cats[i].key))) == 1
    ensures TabMarks(cats, Some(cats[i].key))[i]
  {
    CountSingle(TabMarks(cats, Some(cats[i].key)), i);
  }

  /** A selection that is no tab's key marks no tab. */
  lemma NoTabMarked(cats: seq<Category>, selected: Option<string>)
    requires forall i :: 0 <= i < |cats| ==> selected != Some(cats[i].key)
    ensures CountMarked(TabMarks(cats, selected)) == 0
  {
    CountNone(TabMarks(cats, selected));
  }

  /** With distinct keys, the list for a category's key is exactly that
      category's questions, in their order. */
  lemma {:induction false} ShownIsSelectedTopic(data: seq<Topic>, i: nat)
    requires DistinctTopics(data) && i < |data|
    ensures Shown(data, Some(data[i].category)) == data[i].questions
    decreases |data|
  {
    if i == 0 {
      ShownEmptyWithoutMatch(data[1..], Some(data[0].category));
    } else {
      assert data[0].category != data[i].category;
      ShownIsSelectedTopic(data[1..], i - 1);
    }
  }

  /** A selection that matches no `faqData` key lists nothing. */
  lemma {:induction false} ShownEmptyWithoutMatch(data: seq<Topic>, selected: Option<string>)
    requires forall i :: 0 <= i < |data| ==> selected != Some(data[i].category)
    ensures Shown(data, selected) == []
    decreases |data|
  {
    if |data| > 0 {
      ShownEmptyWithoutMatch(data[1..], selected);
    }
  }

  /** Toggling the same item twice restores the state. */
  lemma ToggleTwiceRestores(st: FaqState, i: nat)
    requires i < |st.open|
    ensures ToggleItem(ToggleItem(st, i), i) == st
  {
  }

  /** Toggling keeps the items matched to the listed questions. */
  lemma ToggleKeepsConsistent(st: FaqState, data: seq<Topic>, i: nat)
    requires Consistent(st, data) && i < |st.open|
    ensures Consistent(ToggleItem(st, i), data)
  {
  }
}
