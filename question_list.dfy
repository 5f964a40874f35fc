/**
 * The collapsible question list of the QCM form: open/closed items, and an
 * edit mode that replaces the list by the question form.
 */
module QuestionList {
  import opened Wrappers
  import opened QuizOptions

  /** `!!openItems[id]`: a missing entry is closed. */
  function IsOpen(open: map<string, bool>, id: string): bool {
    id in open && open[id]
  }

  /** One rendered row: its 1-based number, its question, and whether "up" is disabled. */
  datatype Row = Row(number: int, question: Question, upDisabled: bool)

  datatype Screen = EditForm(existing: Question) | Items(rows: seq<Row>)

  /** While a question is being edited the list shows only the edit form. */
  function Render(questions: seq<Question>, editing: Option<Question>): (s: Screen)
    ensures editing.Some? <==> s.EditForm?
    ensures editing.Some? ==> s.existing == editing.value
    ensures s.Items? ==> |s.rows| == |questions|
    ensures s.Items? ==> forall i :: 0 <= i < |questions| ==>
      s.rows[i].number == i + 1 && s.rows[i].question == questions[i] && (s.rows[i].upDisabled <==> i == 0)
  {
    if editing.Some? then EditForm(editing.value)
    else Items(seq(|questions|, i requires 0 <= i < |questions| => Row(i + 1, questions[i], i == 0)))
  }

  class List {
    var openItems: map<string, bool>
    var editing: Option<Question>

    constructor ()
      ensures openItems == map[] && editing == None
    {
      openItems := map[];
      editing := None;
    }

    /** toggleItem: flips that item and no other. */
    method ToggleItem(id: string)
      modifies this
      ensures openItems == old(openItems)[id := !IsOpen(old(openItems), id)]
      ensures IsOpen(openItems, id) == !IsOpen(old(openItems), id)
      ensures forall other :: other != id ==> IsOpen(openItems, other) == IsOpen(old(openItems), other)
      ensures editing == old(editing)
    {
      openItems := openItems[id := !IsOpen(openItems, id)];
    }

    method Edit(q: Question)
      modifies this
      ensures editing == Some(q) && openItems == old(openItems)
    {
      editing := Some(q);
    }

    /**
     * handleSaveEdit: reports (original, updated) to onEdit and leaves edit
     * mode; with nothing being edited it does nothing.
     */
    method SaveEdit(updated: Question) returns (onEdit: Option<(Question, Question)>)
      modifies this
      ensures old(editing).None? ==> onEdit == None && editing == None
      ensures old(editing).Some? ==> onEdit == Some((old(editing).value, updated)) && editing == None
      ensures openItems == old(openItems)
    {
      onEdit := None;
      if editing.Some? {
        onEdit := Some((editing.value, updated));
        editing := None;
      }
    }

    method CancelEdit()
      modifies this
      ensures editing == None && openItems == old(openItems)
    {
      editing := None;
    }
  }

  /** Toggling an item twice restores whether every item is open. */
  lemma ToggleTwice(open: map<string, bool>, id: string)
    ensures var once := open[id := !IsOpen(open, id)];
            var twice := once[id := !IsOpen(once, id)];
            forall x :: IsOpen(twice, x) == IsOpen(open, x)
  {
  }
}
