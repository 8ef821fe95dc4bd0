/** `src/components/sales-funnel/kanban-board.tsx`: the board of six stage
    columns on the sales-funnel page. The page hands it the opportunities
    sorted by stage (`data`); the board keeps its own copy (`items`), moves a
    card when it is dropped on another column, asks the server to change the
    card's stage, and falls back to `data` when the server refuses. */
module Kanban {
  import opened Common
  import opened Seqs
  import opened Calendar
  import opened Store
  import opened Utils
  import opened Groups
  import opened JsText
  import SFS = SalesFunnelSchema
  import SF = SalesFunnel

  type Opportunity = SF.Opportunity

  /** `item.price || 0`. */
  function PriceOf(o: Opportunity): int
  {
    OrZero(o.price)
  }

  /** A column's `totalValue`: its prices added up, a null price counting 0. */
  function ColumnTotal(column: seq<Opportunity>): int
  {
    SumBy(column, PriceOf)
  }

  function ColumnSize(column: seq<Opportunity>): int
  {
    |column|
  }

  /** The number of cards on a board. */
  function CardCount(columns: seq<seq<Opportunity>>): int
  {
    SumBy(columns, ColumnSize)
  }

  /** The value of a board: its columns' totals added up. */
  function BoardValue(columns: seq<seq<Opportunity>>): int
  {
    SumBy(columns, ColumnTotal)
  }

  /** Every card sits in the column of its stage (column k holds stage
      `SFS.StageNames[k]`), as the page's `data` does. */
  predicate Sorted(columns: seq<seq<Opportunity>>)
  {
    |columns| == 6
    && forall c, k :: 0 <= c < 6 && 0 <= k < |columns[c]| ==> columns[c][k].stage == SFS.StageNames[c]
  }

  /** The board the page builds from the stage lists of `getSalesFunnelByStage`
      is sorted. */
  lemma ByStageSorted(rows: seq<Opportunity>)
    ensures Sorted(seq(6, k requires 0 <= k < 6 => Filter(rows, KeyIs(SF.StageOf, SFS.StageNames[k]))))
  {
    var columns: seq<seq<Opportunity>> := seq(6, k requires 0 <= k < 6 => Filter(rows, KeyIs(SF.StageOf, SFS.StageNames[k])));
    forall c, k | 0 <= c < 6 && 0 <= k < |columns[c]| ensures columns[c][k].stage == SFS.StageNames[c] {
      assert KeyIs(SF.StageOf, SFS.StageNames[c])(columns[c][k]);
    }
  }

  /** A card found on the board: the card and the index of its column. */
  datatype Found = Found(item: Opportunity, column: nat)

  /** `stageItems.find(i => i.id === id)`. */
  function FindInColumn(column: seq<Opportunity>, id: string): (r: Option<Opportunity>)
    ensures r.Some? <==> HasId(column, SF.IdOf, id)
    ensures r.Some? ==> r.value.id == id && r.value in column
    decreases |column|
  {
    if column == [] then None
    else if column[0].id == id then Some(column[0])
    else
      var r := FindInColumn(column[1..], id);
      assert HasId(column, SF.IdOf, id) ==> HasId(column[1..], SF.IdOf, id) by {
        if HasId(column, SF.IdOf, id) {
          var i :| 0 <= i < |column| && column[i].id == id;
          assert column[1..][i - 1] == column[i];
        }
      }
      assert HasId(column[1..], SF.IdOf, id) ==> HasId(column, SF.IdOf, id) by {
        if HasId(column[1..], SF.IdOf, id) {
          var i :| 0 <= i < |column[1..]| && column[1..][i].id == id;
          assert column[i + 1] == column[1..][i];
        }
      }
      r
  }

  /** `findItem` from column c on. */
  function FindFrom(columns: seq<seq<Opportunity>>, id: string, c: nat): (r: Option<Found>)
    ensures r.Some? ==> c <= r.value.column < |columns| && r.value.item in columns[r.value.column]
                        && r.value.item.id == id
                        && forall b :: c <= b < r.value.column ==> !HasId(columns[b], SF.IdOf, id)
    ensures r.None? ==> forall b :: c <= b < |columns| ==> !HasId(columns[b], SF.IdOf, id)
    decreases |columns| - c
  {
    if c >= |columns| then None
    else
      match FindInColumn(columns[c], id)
      case Some(item) => Some(Found(item, c))
      case None => FindFrom(columns, id, c + 1)
  }

  /** `findItem`: the first column holding a card with the id, and that card. */
  function FindIn(columns: seq<seq<Opportunity>>, id: string): Option<Found>
  {
    FindFrom(columns, id, 0)
  }

  /** The column of a stage name (`stageNames.includes(over.id)`). */
  function ColumnOf(stage: string): (r: Option<nat>)
    ensures r.Some? <==> stage in SFS.StageNames
    ensures r.Some? ==> r.value < 6 && SFS.StageNames[r.value] == stage
  {
    if stage == "Cold" then Some(0)
    else if stage == "Warm" then Some(1)
    else if stage == "Hot" then Some(2)
    else if stage == "Won" then Some(3)
    else if stage == "Closed" then Some(4)
    else if stage == "Lost" then Some(5)
    else None
  }

  /** The target column of a drop: the column of the card dropped on, or else the
      column whose stage name is the drop target's id. */
  function TargetColumn(columns: seq<seq<Opportunity>>, overId: string): Option<nat>
  {
    match FindIn(columns, overId)
    case Some(f) => Some(f.column)
    case None => ColumnOf(overId)
  }

  /** The move a drop makes: the dragged card with its column, and the target
      column; None when the board stays as it is (no drop target, unknown card,
      no target column, or the card's own column). */
  function Drop(columns: seq<seq<Opportunity>>, activeId: string, overId: Option<string>): Option<(Found, nat)>
  {
    if overId.None? then None
    else
      match FindIn(columns, activeId)
      case None => None
      case Some(f) =>
        var t := TargetColumn(columns, overId.value);
        if t.None? || t.value == f.column then None else Some((f, t.value))
  }

  /** The optimistic update: the card leaves its column and joins the end of the
      target column with the target's stage. */
  function Moved(columns: seq<seq<Opportunity>>, source: nat, target: nat, item: Opportunity): seq<seq<Opportunity>>
    requires source < |columns| && target < 6 && target < |columns|
  {
    var removed := columns[source := DeleteWhere(columns[source], SF.IdOf, item.id)];
    removed[target := removed[target] + [item.(stage := SFS.StageNames[target])]]
  }

  /** A drop moves a card that is on the board, with the dragged id, to another
      of the six columns, which is the column of the card dropped on or the
      column named by the drop target. */
  lemma DropMeaning(columns: seq<seq<Opportunity>>, activeId: string, overId: Option<string>)
    requires |columns| == 6
    ensures var d := Drop(columns, activeId, overId);
            d.Some? ==>
              var (f, t) := d.value;
              && overId.Some? && f.column < 6 && t < 6 && t != f.column
              && f.item in columns[f.column] && f.item.id == activeId
              && (forall b :: 0 <= b < f.column ==> !HasId(columns[b], SF.IdOf, activeId))
              && ((FindIn(columns, overId.value).Some? && FindIn(columns, overId.value).value.column == t)
                  || (FindIn(columns, overId.value).None? && SFS.StageNames[t] == overId.value))
    ensures overId.None? || FindIn(columns, activeId).None? ==> Drop(columns, activeId, overId).None?
  {
  }

  /** A move leaves the other four columns alone; the card is no longer in its
      old column and sits at the end of the target column with the target's
      stage. */
  lemma MovedColumns(columns: seq<seq<Opportunity>>, source: nat, target: nat, item: Opportunity)
    requires |columns| == 6 && source < 6 && target < 6 && source != target
    ensures var m := Moved(columns, source, target, item);
            && |m| == 6
            && (forall c :: 0 <= c < 6 && c != source && c != target ==> m[c] == columns[c])
            && !HasId(m[source], SF.IdOf, item.id)
            && m[target] == columns[target] + [item.(stage := SFS.StageNames[target])]
  {
  }

  /** With ids unique within the card's column, a move keeps the number of
      cards and the value of the board. */
  lemma MoveKeepsTotals(columns: seq<seq<Opportunity>>, source: nat, target: nat, item: Opportunity)
    requires |columns| == 6 && source < 6 && target < 6 && source != target
    requires item in columns[source] && UniqueIds(columns[source], SF.IdOf)
    ensures CardCount(Moved(columns, source, target, item)) == CardCount(columns)
    ensures BoardValue(Moved(columns, source, target, item)) == BoardValue(columns)
  {
    MoveKeepsCount(columns, source, target, item);
    MoveKeepsValue(columns, source, target, item);
  }

  lemma MoveKeepsCount(columns: seq<seq<Opportunity>>, source: nat, target: nat, item: Opportunity)
    requires |columns| == 6 && source < 6 && target < 6 && source != target
    requires item in columns[source] && UniqueIds(columns[source], SF.IdOf)
    ensures CardCount(Moved(columns, source, target, item)) == CardCount(columns)
  {
    var col := columns[source];
    var left := DeleteWhere(col, SF.IdOf, item.id);
    var removed := columns[source := left];
    var added := removed[target] + [item.(stage := SFS.StageNames[target])];
    assert HasId(col, SF.IdOf, item.id);
    DeleteCount(col, SF.IdOf, item.id);
    SumByUpdate(columns, source, left, ColumnSize);
    SumByUpdate(removed, target, added, ColumnSize);
  }

  /** The one card of the column with the moved card's id is that card. */
  lemma OnlyCard(col: seq<Opportunity>, item: Opportunity)
    requires item in col && UniqueIds(col, SF.IdOf)
    ensures Filter(col, IdIs(SF.IdOf, item.id)) == [item]
  {
    var i :| 0 <= i < |col| && col[i] == item;
    assert HasId(col, SF.IdOf, item.id);
    DeleteCount(col, SF.IdOf, item.id);
    var only := Filter(col, IdIs(SF.IdOf, item.id));
    assert |only| == 1;
    assert IdIs(SF.IdOf, item.id)(only[0]);
    FilterContains(col, IdIs(SF.IdOf, item.id), only[0]);
    var j :| 0 <= j < |col| && col[j] == only[0];
    assert SF.IdOf(col[j]) == SF.IdOf(col[i]);
  }

  lemma MoveKeepsValue(columns: seq<seq<Opportunity>>, source: nat, target: nat, item: Opportunity)
    requires |columns| == 6 && source < 6 && target < 6 && source != target
    requires item in columns[source] && UniqueIds(columns[source], SF.IdOf)
    ensures BoardValue(Moved(columns, source, target, item)) == BoardValue(columns)
  {
    var col := columns[source];
    var left := DeleteWhere(col, SF.IdOf, item.id);
    var removed := columns[source := left];
    var card := item.(stage := SFS.StageNames[target]);
    var added := removed[target] + [card];
    OnlyCard(col, item);
    assert SumBy([item], PriceOf) == PriceOf(item) by {
      assert [item][..0] == [];
    }
    FilterSplitSum(col, IdIs(SF.IdOf, item.id), PriceOf);
    FilterCongruent(col, Not(IdIs(SF.IdOf, item.id)), Not(IdIs(SF.IdOf, item.id)));
    SumByConcat(removed[target], [card], PriceOf);
    assert SumBy([card], PriceOf) == PriceOf(item) by {
      assert [card][..0] == [];
    }
    SumByUpdate(columns, source, left, ColumnTotal);
    SumByUpdate(removed, target, added, ColumnTotal);
  }

  /** A move keeps every card in the column of its stage. */
  lemma MoveKeepsSorted(columns: seq<seq<Opportunity>>, source: nat, target: nat, item: Opportunity)
    requires Sorted(columns) && source < 6 && target < 6 && source != target
    ensures Sorted(Moved(columns, source, target, item))
  {
    var m: seq<seq<Opportunity>> := Moved(columns, source, target, item);
    forall c, k | 0 <= c < 6 && 0 <= k < |m[c]| ensures m[c][k].stage == SFS.StageNames[c] {
      if c == source {
        assert m[c][k] in columns[source];
        var j :| 0 <= j < |columns[source]| && columns[source][j] == m[c][k];
      } else if c == target && k == |m[c]| - 1 {
      } else if c == target {
        assert m[c][k] == columns[c][k];
      }
    }
  }

  /** The board's state. */
  class KanbanBoard {
    const data: seq<seq<Opportunity>>
    var items: seq<seq<Opportunity>>

    predicate Valid()
      reads this
    {
      |data| == 6 && |items| == 6
    }

    /** `useState(data)`. */
    constructor (data: seq<seq<Opportunity>>)
      requires |data| == 6
      ensures Valid() && this.data == data && items == data
    {
      this.data := data;
      items := data;
    }

    /** `findItem`: the columns in order, the first card with the id. */
    method FindItem(id: string) returns (r: Option<Found>)
      requires Valid()
      ensures r == FindIn(items, id)
    {
      var c := 0;
      while c < 6
        invariant 0 <= c <= 6
        invariant FindIn(items, id) == FindFrom(items, id, c)
      {
        var column := items[c];
        var k := 0;
        while k < |column|
          invariant 0 <= k <= |column|
          invariant FindInColumn(column, id) == FindInColumn(column[k..], id)
        {
          if column[k].id == id {
            return Some(Found(column[k], c));
          }
          assert column[k..][1..] == column[k + 1..];
          k := k + 1;
        }
        c := c + 1;
      }
      return None;
    }

    /** `handleDragEnd`: resolves the move, makes it on the board at once, and
        asks the server (`updateSalesFunnelStage`) to change the card's stage;
        when the server fails the board is reset to `data`. */
    method HandleDragEnd(activeId: string, overId: Option<string>, table: SF.SalesFunnelTable, failure: Option<string>)
      requires Valid() && table.Valid()
      modifies this, table
      ensures Valid() && table.Valid()
      ensures Drop(old(items), activeId, overId).None? ==> items == old(items) && table.rows == old(table.rows)
      ensures Drop(old(items), activeId, overId).Some? ==>
                var (f, t) := Drop(old(items), activeId, overId).value;
                if failure.None? && HasId(old(table.rows), SF.IdOf, f.item.id) then
                  items == Moved(old(items), f.column, t, f.item)
                  && table.rows == UpdateWhere(old(table.rows), SF.IdOf, f.item.id, o => SF.StageChange(o, SFS.StageNames[t]))
                else
                  items == data && table.rows == old(table.rows)
    {
      if overId.None? {
        return;
      }
      var activeItem := FindItem(activeId);
      if activeItem.None? {
        return;
      }
      var targetStage: Option<nat> := None;
      var overItem := FindItem(overId.value);
      if overItem.Some? {
        targetStage := Some(overItem.value.column);
      } else {
        targetStage := ColumnOf(overId.value);
      }
      if targetStage.None? || targetStage.value == activeItem.value.column {
        return;
      }
      var source := activeItem.value.column;
      var target := targetStage.value;
      var item := activeItem.value.item;
      var newItems := items;
      newItems := newItems[source := DeleteWhere(newItems[source], SF.IdOf, item.id)];
      newItems := newItems[target := newItems[target] + [item.(stage := SFS.StageNames[target])]];
      items := newItems;
      var r := table.UpdateStage(item.id, SFS.StageNames[target], failure);
      if r.Err? {
        items := data;
      }
    }
  }

  /** The date a card shows: `close_date || created_date`. */
  function CardDate(o: Opportunity): Option<Date>
  {
    if o.closeDate.Some? then o.closeDate else o.createdDate
  }

  /** What `getSmartDate` returns. */
  datatype SmartDate = SmartDate(text: string, isUrgent: bool, isPast: bool)

  /** `getSmartDate`, given the day and the whole days from today to it
      (`diffDays`); None for a missing or unparseable date. */
  function GetSmartDate(date: Option<Date>, diffDays: int): (r: SmartDate)
    requires date.Some? ==> Valid(date.value)
    ensures date.None? ==> r == SmartDate("", false, false)
    ensures date.Some? ==> (r.isUrgent <==> 0 <= diffDays <= 3)
    ensures date.Some? ==> (r.isPast <==> diffDays < 0)
    ensures !(r.isUrgent && r.isPast)
    ensures date.Some? ==> r.text != ""
    ensures date.Some? && (diffDays < -29 || diffDays > 7) ==> r.text == FormatDateShortMn(date)
  {
    if date.None? then SmartDate("", false, false)
    else
      var d := diffDays;
      var text :=
        if d < 0 then
          (if d == -1 then "Өчигдөр"
           else if d > -7 then IntToString(if d < 0 then -d else d) + " өдрийн өмнө"
           else if d > -30 then IntToString((if d < 0 then -d else d) / 7) + " долоо хоногийн өмнө"
           else FormatDateShortMn(date))
        else if d == 0 then "Өнөөдөр"
        else if d == 1 then "Маргааш"
        else if d <= 7 then IntToString(d) + " өдрийн дараа"
        else FormatDateShortMn(date);
      assert FormatDateShortMn(date) != "" by {
        assert |FormatDateShortMn(date)| >= 7;
      }
      SmartDate(text, 0 <= d <= 3, d < 0)
  }
}
