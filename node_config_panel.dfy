// The flow-builder side panel that edits one node: a local copy of the
// node's data, the button list edited on a copy of the array, and the save
// that hands the whole copy back. A button is the object the list holds.
module NodeConfigPanel {
  import opened Common

  type Button = map<string, Json>

  /** The node's data: its properties, with the button list kept apart (`buttons`, possibly missing). */
  datatype FormData = FormData(fields: map<string, Json>, buttons: Option<seq<Button>>)

  const NEW_BUTTON_TITLE := "Novo Botão"

  /** `formData.buttons || []`. */
  function ButtonsOf(d: FormData): (r: seq<Button>)
    ensures d.buttons.None? ==> r == []
    ensures d.buttons.Some? ==> r == d.buttons.value
  {
    if d.buttons.Some? then d.buttons.value else []
  }

  /** The button "+ Adicionar" makes, its id taken from the clock. */
  function NewButton(now: nat): (b: Button)
    ensures "title" in b && b["title"] == JStr(NEW_BUTTON_TITLE)
    ensures "id" in b && b["id"] == JStr("btn_" + NatToString(now))
  {
    map["id" := JStr("btn_" + NatToString(now)), "title" := JStr(NEW_BUTTON_TITLE)]
  }

  /** Where `splice(index, 1)` starts: a negative index counts from the end, and both ends are clamped. */
  function SpliceStart(index: int, len: nat): (k: nat)
    ensures k <= len
    ensures 0 <= index <= len ==> k == index
    ensures index < 0 && index + len >= 0 ==> k == index + len
  {
    if index < 0 then (if index + len < 0 then 0 else index + len)
    else if index > len then len
    else index
  }

  /** The list after `splice(index, 1)`: the element at the start position goes, if there is one. */
  function RemovedAt(bs: seq<Button>, index: int): (r: seq<Button>)
    ensures SpliceStart(index, |bs|) < |bs| ==> |r| == |bs| - 1
    ensures SpliceStart(index, |bs|) == |bs| ==> r == bs
    ensures forall j :: 0 <= j < SpliceStart(index, |bs|) && j < |r| ==> r[j] == bs[j]
    ensures forall j :: SpliceStart(index, |bs|) <= j < |r| ==> r[j] == bs[j + 1]
  {
    var k := SpliceStart(index, |bs|);
    if k < |bs| then bs[..k] + bs[k + 1..] else bs
  }

  /** Removing a button the list shows takes away exactly that button and no other. */
  lemma RemovedAtMultiset(bs: seq<Button>, index: int)
    requires 0 <= index < |bs|
    ensures multiset(RemovedAt(bs, index)) + multiset{bs[index]} == multiset(bs)
  {
    assert bs == bs[..index] + [bs[index]] + bs[index + 1..];
  }

  /** The list after `newButtons[index] = {...newButtons[index], [field]: value}`. */
  function UpdatedAt(bs: seq<Button>, index: nat, field: string, value: string): (r: seq<Button>)
    requires index < |bs|
    ensures |r| == |bs|
    ensures forall j :: 0 <= j < |bs| && j != index ==> r[j] == bs[j]
    ensures field in r[index] && r[index][field] == JStr(value)
    ensures forall k :: k in bs[index] && k != field ==> k in r[index] && r[index][k] == bs[index][k]
    ensures forall k :: k in r[index] ==> k in bs[index] || k == field
  {
    bs[index := bs[index][field := JStr(value)]]
  }

  /** Adding a button and then removing the last one gives back the list. */
  lemma AddThenRemoveLast(bs: seq<Button>, now: nat)
    ensures RemovedAt(bs + [NewButton(now)], |bs|) == bs
    ensures RemovedAt(bs + [NewButton(now)], -1) == bs
  {
  }

  /** Typing into a button's title twice keeps only the second text. */
  lemma UpdateTwiceKeepsLast(bs: seq<Button>, index: nat, field: string, a: string, b: string)
    requires index < |bs|
    ensures UpdatedAt(UpdatedAt(bs, index, field, a), index, field, b) == UpdatedAt(bs, index, field, b)
  {
    assert bs[index][field := JStr(a)][field := JStr(b)] == bs[index][field := JStr(b)];
  }

  /**
   * The panel: the node's data as last given, the local copy being edited,
   * every form handed to `onChange`, and whether `onClose` was called.
   */
  class Panel {
    var nodeData: FormData
    var formData: FormData
    var saved: seq<FormData>
    var closed: bool

    /** The form starts as a copy of the node's data. */
    constructor(data: FormData)
      ensures nodeData == data && formData == data
      ensures saved == [] && !closed
    {
      nodeData := data;
      formData := data;
      saved := [];
      closed := false;
    }

    /** Another node (or new data for it): the form starts over from that data. */
    method NodeChanged(data: FormData)
      modifies this
      ensures nodeData == data && formData == data
      ensures saved == old(saved) && closed == old(closed)
    {
      nodeData := data;
      formData := data;
    }

    /** A text field of the form changes; nothing reaches the node until saved. */
    method SetField(key: string, value: string)
      modifies this
      ensures formData.fields == old(formData.fields)[key := JStr(value)]
      ensures formData.buttons == old(formData.buttons)
      ensures nodeData == old(nodeData) && saved == old(saved) && closed == old(closed)
    {
      formData := formData.(fields := formData.fields[key := JStr(value)]);
    }

    /** `handleSave`: the whole form goes to `onChange`, then the panel closes. */
    method Save()
      modifies this
      ensures saved == old(saved) + [old(formData)]
      ensures closed
      ensures formData == old(formData) && nodeData == old(nodeData)
    {
      saved := saved + [formData];
      closed := true;
    }

    /** `handleAddButton`: one more button at the end, titled "Novo Botão"; a missing list counts as empty. */
    method AddButton(now: nat)
      modifies this
      ensures formData.buttons == Some(ButtonsOf(old(formData)) + [NewButton(now)])
      ensures formData.fields == old(formData.fields)
      ensures nodeData == old(nodeData) && saved == old(saved) && closed == old(closed)
    {
      var newButtons := ButtonsOf(formData) + [NewButton(now)];
      formData := formData.(buttons := Some(newButtons));
    }

    /** `handleRemoveButton`: a copy of the list, spliced at the index. */
    method RemoveButton(index: int)
      modifies this
      ensures formData.buttons == Some(RemovedAt(ButtonsOf(old(formData)), index))
      ensures formData.fields == old(formData.fields)
      ensures nodeData == old(nodeData) && saved == old(saved) && closed == old(closed)
    {
      var newButtons := ButtonsOf(formData);
      var k := SpliceStart(index, |newButtons|);
      if k < |newButtons| {
        newButtons := newButtons[..k] + newButtons[k + 1..];
      }
      formData := formData.(buttons := Some(newButtons));
    }

    /** `handleUpdateButton`: a copy of the list whose button at the index has the field set. */
    method UpdateButton(index: nat, field: string, value: string)
      requires index < |ButtonsOf(formData)|
      modifies this
      ensures formData.buttons == Some(UpdatedAt(ButtonsOf(old(formData)), index, field, value))
      ensures formData.fields == old(formData.fields)
      ensures nodeData == old(nodeData) && saved == old(saved) && closed == old(closed)
    {
      var newButtons := ButtonsOf(formData);
      newButtons := newButtons[index := newButtons[index][field := JStr(value)]];
      formData := formData.(buttons := Some(newButtons));
    }
  }

  /** An edit followed by a save hands the node exactly the edited form. */
  method EditThenSave(data: FormData, now: nat) returns (handedOver: FormData)
    ensures handedOver.fields == data.fields
    ensures handedOver.buttons == Some(ButtonsOf(data) + [NewButton(now)])
  {
    var p := new Panel(data);
    p.AddButton(now);
    p.Save();
    assert p.saved == [p.formData];
    handedOver := p.saved[0];
  }
}
