/** `components/ChecklistCreator.tsx`: the checklist editor's operations on a
    `ChecklistData` and its score. */
module ChecklistCreator {
  import opened Types
  import Lists
  import Ids

  /** The editor's inputs: the record it is given and its pending "new item" text. */
  datatype ChecklistEditor = ChecklistEditor(data: ChecklistData, newItemText: string)

  predicate UniqueIds(items: seq<ChecklistItem>)
  {
    forall i, j :: 0 <= i < j < |items| ==> items[i].id != items[j].id
  }

  /** The item at `k` is the only one carrying its id; other ids may repeat. */
  predicate IdOnlyAt(items: seq<ChecklistItem>, k: nat)
  {
    k < |items| && forall i :: 0 <= i < |items| && i != k ==> items[i].id != items[k].id
  }

  /** `it.checked` is truthy: an absent `checked` counts as unchecked. */
  predicate IsChecked(it: ChecklistItem)
  {
    it.checked == Some(true)
  }

  function CheckedCount(items: seq<ChecklistItem>): nat
  {
    |Lists.Filter(items, IsChecked)|
  }

  /** The characters `String.prototype.trim` strips: the ECMAScript white space and line
      terminator characters. */
  predicate IsTrimmable(c: char)
  {
    var n := c as int;
    n == 0x09 || n == 0x0A || n == 0x0B || n == 0x0C || n == 0x0D || n == 0x20
    || n == 0xA0 || n == 0x1680 || 0x2000 <= n <= 0x200A || n == 0x2028 || n == 0x2029
    || n == 0x202F || n == 0x205F || n == 0x3000 || n == 0xFEFF
  }

  /** `!text.trim()`: the text trims to the empty string. */
  predicate IsBlank(text: string)
  {
    forall i :: 0 <= i < |text| ==> IsTrimmable(text[i])
  }

  /** `calculateScore`: the share of checked items on a 0 to 10 scale, 0 for no items. */
  function CalculateScore(d: ChecklistData): (r: real)
    ensures 0.0 <= r <= 10.0
    ensures r == 10.0 <==> |d.items| > 0 && forall i :: 0 <= i < |d.items| ==> IsChecked(d.items[i])
    ensures r == 0.0 <==> forall i :: 0 <= i < |d.items| ==> !IsChecked(d.items[i])
  {
    var n := |d.items|;
    var checked := CheckedCount(d.items);
    Lists.FilterKeepsAll(d.items, IsChecked);
    NoneCheckedIffZero(d.items);
    if n > 0 then
      Lists.ScaledRatio(checked as real, n as real);
      (checked as real / n as real) * 10.0
    else 0.0
  }

  lemma NoneCheckedIffZero(items: seq<ChecklistItem>)
    ensures CheckedCount(items) == 0 <==> forall i :: 0 <= i < |items| ==> !IsChecked(items[i])
  {
    var r := Lists.Filter(items, IsChecked);
    Lists.FilterMembers(items, IsChecked);
    if |r| > 0 {
      assert r[0] in items && IsChecked(r[0]);
      var j :| 0 <= j < |items| && items[j] == r[0];
    }
  }

  /** `createEmptyChecklist`: one unchecked placeholder item, so the score is 0. */
  function CreateEmptyChecklist(now: nat): (d: ChecklistData)
    ensures |d.items| == 1 && d.items[0].id == Ids.ManualId("i-", now) && d.items[0].checked == Some(false)
    ensures CalculateScore(d) == 0.0
  {
    ChecklistData("Nueva Lista de Cotejo", "General", "Cualquiera",
      [ChecklistItem(Ids.ManualId("i-", now), "Primer indicador observable", Some(false))])
  }

  /** `addItem`: a blank pending text does nothing; otherwise the text, untrimmed, is
      appended as one unchecked item and the pending text is cleared. */
  function AddItem(e: ChecklistEditor, now: nat): (r: ChecklistEditor)
    ensures IsBlank(e.newItemText) ==> r == e
    ensures !IsBlank(e.newItemText) ==>
      && r.newItemText == ""
      && r.data.(items := e.data.items) == e.data
      && r.data.items == e.data.items + [ChecklistItem(Ids.ManualId("i-", now), e.newItemText, Some(false))]
  {
    if IsBlank(e.newItemText) then e
    else
      var item := ChecklistItem(Ids.ManualId("i-", now), e.newItemText, Some(false));
      ChecklistEditor(e.data.(items := e.data.items + [item]), "")
  }

  /** An added item is unchecked: the checked count stays and the item count grows by one. */
  lemma AddItemScore(e: ChecklistEditor, now: nat)
    requires !IsBlank(e.newItemText)
    ensures var r := AddItem(e, now).data;
      && CheckedCount(r.items) == CheckedCount(e.data.items)
      && CalculateScore(r) == (CheckedCount(e.data.items) as real / (|e.data.items| + 1) as real) * 10.0
  {
    var r := AddItem(e, now).data;
    Lists.FilterAppend(e.data.items, [r.items[|e.data.items|]], IsChecked);
  }

  /** `removeItem`: the items with that id go, every other stays. */
  function RemoveItem(d: ChecklistData, id: string): (r: ChecklistData)
    ensures r.(items := d.items) == d
    ensures forall i :: 0 <= i < |r.items| ==> r.items[i].id != id && r.items[i] in d.items
    ensures forall i :: 0 <= i < |d.items| && d.items[i].id != id ==> d.items[i] in r.items
    ensures (forall i :: 0 <= i < |d.items| ==> d.items[i].id != id) ==> r == d
  {
    var keep := (it: ChecklistItem) => it.id != id;
    Lists.FilterMembers(d.items, keep);
    d.(items := Lists.Filter(d.items, keep))
  }

  /** Removing an item just added under a fresh id gives back the checklist as it was. */
  lemma RemoveUndoesAdd(e: ChecklistEditor, now: nat)
    requires forall i :: 0 <= i < |e.data.items| ==> e.data.items[i].id != Ids.ManualId("i-", now)
    ensures RemoveItem(AddItem(e, now).data, Ids.ManualId("i-", now)) == e.data
  {
    var id := Ids.ManualId("i-", now);
    if !IsBlank(e.newItemText) {
      var items := AddItem(e, now).data.items;
      var keep := (it: ChecklistItem) => it.id != id;
      Lists.FilterAppend(e.data.items, [items[|e.data.items|]], keep);
      assert Lists.Filter([items[|e.data.items|]], keep) == [];
    }
  }

  /** Removing the one item with a given id leaves the others in their order. */
  lemma RemoveKeepsOrder(d: ChecklistData, k: nat)
    requires IdOnlyAt(d.items, k)
    ensures RemoveItem(d, d.items[k].id).items == d.items[..k] + d.items[k + 1..]
  {
    var id := d.items[k].id;
    Lists.FilterRemoveOne(d.items, k, (it: ChecklistItem) => it.id != id);
  }

  /** `updateItemText`: the text of the matching items replaced, `checked` kept. */
  function UpdateItemText(d: ChecklistData, id: string, text: string): (r: ChecklistData)
    ensures r.(items := d.items) == d
    ensures |r.items| == |d.items|
    ensures forall i :: 0 <= i < |d.items| ==>
      r.items[i] == if d.items[i].id == id then d.items[i].(text := text) else d.items[i]
  {
    d.(items := Lists.Map(d.items, (it: ChecklistItem) => if it.id == id then it.(text := text) else it))
  }

  /** Editing text never changes the score. */
  lemma UpdateItemTextKeepsScore(d: ChecklistData, id: string, text: string)
    ensures CalculateScore(UpdateItemText(d, id, text)) == CalculateScore(d)
  {
    var r := UpdateItemText(d, id, text).items;
    UpdateKeepsCount(d.items, r);
  }

  lemma {:induction false} UpdateKeepsCount(s: seq<ChecklistItem>, t: seq<ChecklistItem>)
    requires |s| == |t| && forall i :: 0 <= i < |s| ==> IsChecked(s[i]) == IsChecked(t[i])
    ensures CheckedCount(s) == CheckedCount(t)
  {
    if s != [] {
      UpdateKeepsCount(s[1..], t[1..]);
    }
  }

  /** `toggleItem`: `checked := !checked` on the matching items; ids and texts untouched. */
  function ToggleItem(d: ChecklistData, id: string): (r: ChecklistData)
    ensures r.(items := d.items) == d
    ensures |r.items| == |d.items|
    ensures forall i :: 0 <= i < |d.items| ==> r.items[i].id == d.items[i].id && r.items[i].text == d.items[i].text
    ensures forall i :: 0 <= i < |d.items| ==> d.items[i].id != id ==> r.items[i] == d.items[i]
    ensures forall i :: 0 <= i < |d.items| ==> d.items[i].id == id ==>
      r.items[i].checked == Some(!IsChecked(d.items[i]))
  {
    d.(items := Lists.Map(d.items,
      (it: ChecklistItem) => if it.id == id then it.(checked := Some(!IsChecked(it))) else it))
  }

  /** Toggling twice restores every item's checked state. */
  lemma ToggleTwice(d: ChecklistData, id: string)
    ensures var r := ToggleItem(ToggleItem(d, id), id);
      && |r.items| == |d.items|
      && forall i :: 0 <= i < |d.items| ==> IsChecked(r.items[i]) == IsChecked(d.items[i])
  {
  }

  /** Items that carry `checked`, as every created, added or generated item does, come back
      equal after two toggles; one without it would come back with `checked: false`. */
  lemma ToggleTwiceRestores(d: ChecklistData, id: string)
    requires forall i :: 0 <= i < |d.items| ==> d.items[i].checked.Some?
    ensures ToggleItem(ToggleItem(d, id), id) == d
  {
    var r := ToggleItem(ToggleItem(d, id), id);
    forall i | 0 <= i < |d.items| ensures r.items[i] == d.items[i] {
      if d.items[i].id == id {
        var b := d.items[i].checked.value;
        assert d.items[i].checked == Some(b);
        if b {} else {}
        assert r.items[i].checked == d.items[i].checked;
      }
    }
    assert r.items == d.items;
  }

  /** Toggling the one item with that id moves the checked count by exactly one. */
  lemma ToggleScore(d: ChecklistData, k: nat)
    requires IdOnlyAt(d.items, k)
    ensures var n := CheckedCount(ToggleItem(d, d.items[k].id).items);
      n == if IsChecked(d.items[k]) then CheckedCount(d.items) - 1 else CheckedCount(d.items) + 1
  {
    var it := d.items[k];
    var r := ToggleItem(d, it.id).items;
    assert r == d.items[k := it.(checked := Some(!IsChecked(it)))];
    Lists.CountPointUpdate(d.items, k, it.(checked := Some(!IsChecked(it))), IsChecked);
  }

  /** From a checklist without items: adding one indicator and ticking it scores 10;
      adding a second, unchecked, scores 5. */
  lemma ScoreScenario(d: ChecklistData, t1: nat, t2: nat)
    requires d.items == []
    ensures
      var e1 := AddItem(ChecklistEditor(d, "Levanta la mano"), t1);
      var d2 := ToggleItem(e1.data, Ids.ManualId("i-", t1));
      var e3 := AddItem(ChecklistEditor(d2, "Entrega la tarea"), t2);
      CalculateScore(d2) == 10.0 && CalculateScore(e3.data) == 5.0
  {
    var a, b := "Levanta la mano", "Entrega la tarea";
    assert !IsTrimmable(a[0]) && !IsTrimmable(b[0]);
    var id := Ids.ManualId("i-", t1);
    var e1 := AddItem(ChecklistEditor(d, a), t1);
    assert e1.data.items == [ChecklistItem(id, a, Some(false))];
    var d2 := ToggleItem(e1.data, id);
    assert d2.items == [ChecklistItem(id, a, Some(true))];
    assert CalculateScore(d2) == 10.0;
    SecondItemHalves(d2, b, t2);
  }

  lemma SecondItemHalves(d: ChecklistData, text: string, now: nat)
    requires |d.items| == 1 && IsChecked(d.items[0]) && !IsBlank(text)
    ensures CalculateScore(AddItem(ChecklistEditor(d, text), now).data) == 5.0
  {
    assert d.items[..0] == [];
    assert CheckedCount(d.items) == 1;
    AddItemScore(ChecklistEditor(d, text), now);
    assert (1.0 / 2.0) * 10.0 == 5.0;
  }
}
