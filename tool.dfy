/**
 * The "Tool" component's optional parameters. Three sticky menu toggles
 * (tool weight, relative tool offset, declaration output) add or remove an
 * optional parameter on the component's input or output list. A parameter
 * is inserted where it keeps the optional parameters in catalogue order.
 * The four sticky settings are saved to and restored from the document
 * archive.
 */
module ToolComponent {

  /** An input or output parameter of the component; the lists identify parameters by name. */
  datatype Param = Param(name: string, nickName: string, description: string)

  /** The parameters every tool component registers. */
  const NameParam: Param := Param("Name", "Name", "Tool name.")
  const TcpParam: Param := Param("TCP", "TCP", "Tool Centre Point plane, at end of tool.")
  const MeshParam: Param := Param("Mesh", "Mesh", "Tool mesh geometry for kinematic preview.")
  const ToolParam: Param := Param("Tool", "Tool", "Axis tool definition.")

  /** The catalogues of optional parameters, in the order they appear on the component. */
  const WeightParam: Param :=
    Param("Weight", "Weight", "The weight of the tool in kilograms. Necessary for accurate motion planning.")
  const OffsetParam: Param := Param("Offset", "Offset", "Relative tool offset in mm.")
  const DeclarationParam: Param :=
    Param("Declaration", "Declaration", "Declaration of the tool in the native manufacturer language.")
  const InputCatalogue: seq<Param> := [WeightParam, OffsetParam]
  const OutputCatalogue: seq<Param> := [DeclarationParam]

  /** No two catalogue entries share a name. */
  predicate DistinctNames(catalogue: seq<Param>) {
    forall i, j :: 0 <= i < j < |catalogue| ==> catalogue[i].name != catalogue[j].name
  }

  // ---- the list operations ----

  /** The catalogue position of the first entry named `name`, or -1 when there is none. */
  function FindIndex(catalogue: seq<Param>, name: string): (k: int)
    ensures -1 <= k < |catalogue|
    ensures k >= 0 ==> catalogue[k].name == name
    ensures forall j :: 0 <= j < |catalogue| && (k == -1 || j < k) ==> catalogue[j].name != name
  {
    if catalogue == [] then -1
    else if catalogue[0].name == name then 0
    else
      var k := FindIndex(catalogue[1..], name);
      if k == -1 then -1 else k + 1
  }

  /** How many parameters of `list` are named `name`. */
  function Count(list: seq<Param>, name: string): nat {
    if list == [] then 0
    else (if list[0].name == name then 1 else 0) + Count(list[1..], name)
  }

  /** The first parameter named `name`. */
  function FirstNamed(list: seq<Param>, name: string): (k: nat)
    requires Count(list, name) > 0
    ensures k < |list| && list[k].name == name
    ensures forall j :: 0 <= j < k ==> list[j].name != name
  {
    if list[0].name == name then 0 else 1 + FirstNamed(list[1..], name)
  }

  /**
   * Where a new parameter with catalogue position `index` goes: before the
   * first parameter whose catalogue position is greater, or at the end.
   * Parameters outside the catalogue (position -1) never stop the scan.
   */
  function InsertionPoint(list: seq<Param>, catalogue: seq<Param>, index: nat): (k: nat)
    ensures k <= |list|
    ensures forall i :: 0 <= i < k ==> FindIndex(catalogue, list[i].name) <= index
    ensures k < |list| ==> FindIndex(catalogue, list[k].name) > index
  {
    if list == [] then 0
    else if FindIndex(catalogue, list[0].name) > index then 0
    else 1 + InsertionPoint(list[1..], catalogue, index)
  }

  /** Unregisters the first parameter named `name`; a list without one is left as it is. */
  function Unregister(list: seq<Param>, name: string): (r: seq<Param>)
    ensures Count(list, name) == 0 ==> r == list
    ensures Count(list, name) > 0 ==> |r| == |list| - 1
  {
    if Count(list, name) == 0 then list
    else
      var k := FirstNamed(list, name);
      list[..k] + list[k + 1..]
  }

  /**
   * The list after adding catalogue entry `index`: when a parameter of that
   * name is already present it is unregistered and nothing is inserted;
   * otherwise the entry is inserted at its insertion point.
   */
  function Toggle(list: seq<Param>, catalogue: seq<Param>, index: nat): (r: seq<Param>)
    requires index < |catalogue|
    ensures Count(list, catalogue[index].name) > 0 ==> |r| == |list| - 1
    ensures Count(list, catalogue[index].name) == 0 ==>
              |r| == |list| + 1 && r[InsertionPoint(list, catalogue, index)] == catalogue[index]
  {
    var parameter := catalogue[index];
    if Count(list, parameter.name) > 0 then Unregister(list, parameter.name)
    else
      var k := InsertionPoint(list, catalogue, index);
      list[..k] + [parameter] + list[k..]
  }

  // ---- what the operations keep ----

  lemma {:induction false} CountAppend(a: seq<Param>, b: seq<Param>, name: string)
    ensures Count(a + b, name) == Count(a, name) + Count(b, name)
  {
    if a != [] {
      assert (a + b)[0] == a[0] && (a + b)[1..] == a[1..] + b;
      CountAppend(a[1..], b, name);
    } else {
      assert a + b == b;
    }
  }

  /** Splitting a list at `k` splits its counts. */
  lemma CountSplit(list: seq<Param>, k: nat, name: string)
    requires k <= |list|
    ensures Count(list, name) == Count(list[..k], name) + Count(list[k..], name)
  {
    assert list == list[..k] + list[k..];
    CountAppend(list[..k], list[k..], name);
  }

  /**
   * Toggling catalogue entry `index` leaves a count of one parameter of that
   * name when there was none, takes one away when there was one, and leaves
   * the count of every other name as it was.
   */
  lemma {:induction false} ToggleCount(list: seq<Param>, catalogue: seq<Param>, index: nat, name: string)
    requires index < |catalogue|
    ensures var toggled := catalogue[index].name;
            var before := Count(list, name);
            Count(Toggle(list, catalogue, index), name) ==
              if name != toggled then before
              else if before > 0 then before - 1
              else 1
  {
    var parameter := catalogue[index];
    if Count(list, parameter.name) > 0 {
      UnregisterCount(list, parameter.name, name);
    } else {
      var k := InsertionPoint(list, catalogue, index);
      CountSplit(list, k, name);
      CountAppend(list[..k] + [parameter], list[k..], name);
      CountAppend(list[..k], [parameter], name);
      assert Count([parameter], name) == (if parameter.name == name then 1 else 0) + Count([], name);
    }
  }

  /** Unregistering `toggled` takes one parameter of that name away, if there is one, and no other. */
  lemma {:induction false} UnregisterCount(list: seq<Param>, toggled: string, name: string)
    ensures var before := Count(list, name);
            Count(Unregister(list, toggled), name) ==
              if name == toggled && before > 0 then before - 1 else before
  {
    if Count(list, toggled) > 0 {
      var k := FirstNamed(list, toggled);
      CountSplit(list, k, name);
      assert list[k..] == [list[k]] + list[k + 1..];
      CountAppend([list[k]], list[k + 1..], name);
      assert Count([list[k]], name) == (if list[k].name == name then 1 else 0) + Count([], name);
      CountAppend(list[..k], list[k + 1..], name);
    }
  }

  /** `list` without any parameter named `name`. */
  function Without(list: seq<Param>, name: string): (r: seq<Param>)
    ensures |r| <= |list|
  {
    if list == [] then []
    else (if list[0].name == name then [] else [list[0]]) + Without(list[1..], name)
  }

  lemma {:induction false} WithoutAppend(a: seq<Param>, b: seq<Param>, name: string)
    ensures Without(a + b, name) == Without(a, name) + Without(b, name)
  {
    if a != [] {
      assert (a + b)[0] == a[0] && (a + b)[1..] == a[1..] + b;
      WithoutAppend(a[1..], b, name);
    } else {
      assert a + b == b;
    }
  }

  /** Taking out one parameter named `name` leaves the rest as they were. */
  lemma {:induction false} RemovalKeepsOthers(list: seq<Param>, k: nat, name: string)
    requires k < |list| && list[k].name == name
    ensures Without(list[..k] + list[k + 1..], name) == Without(list, name)
  {
    assert list == list[..k] + ([list[k]] + list[k + 1..]);
    WithoutAppend(list[..k], [list[k]] + list[k + 1..], name);
    WithoutAppend([list[k]], list[k + 1..], name);
    assert Without([list[k]], name) == [] + Without([], name);
    WithoutAppend(list[..k], list[k + 1..], name);
  }

  /** Putting in one parameter named `name` leaves the rest as they were. */
  lemma {:induction false} InsertionKeepsOthers(list: seq<Param>, k: nat, parameter: Param)
    requires k <= |list|
    ensures Without(list[..k] + [parameter] + list[k..], parameter.name) == Without(list, parameter.name)
  {
    var name := parameter.name;
    assert list == list[..k] + list[k..];
    WithoutAppend(list[..k], list[k..], name);
    WithoutAppend(list[..k] + [parameter], list[k..], name);
    WithoutAppend(list[..k], [parameter], name);
    assert Without([parameter], name) == [] + Without([], name);
  }

  /** Toggling a catalogue entry leaves every other parameter where it was relative to the rest. */
  lemma ToggleKeepsOthers(list: seq<Param>, catalogue: seq<Param>, index: nat)
    requires index < |catalogue|
    ensures var name := catalogue[index].name;
            Without(Toggle(list, catalogue, index), name) == Without(list, name)
  {
    var parameter := catalogue[index];
    if Count(list, parameter.name) > 0 {
      RemovalKeepsOthers(list, FirstNamed(list, parameter.name), parameter.name);
    } else {
      InsertionKeepsOthers(list, InsertionPoint(list, catalogue, index), parameter);
    }
  }

  /** The catalogued parameters of `list` appear in catalogue order. */
  predicate CatalogueOrdered(list: seq<Param>, catalogue: seq<Param>) {
    forall i, j :: 0 <= i < j < |list| && FindIndex(catalogue, list[i].name) >= 0 ==>
      FindIndex(catalogue, list[j].name) == -1 ||
      FindIndex(catalogue, list[i].name) <= FindIndex(catalogue, list[j].name)
  }

  /** Taking out a parameter keeps the order of the rest. */
  lemma RemovalKeepsOrder(list: seq<Param>, catalogue: seq<Param>, k: nat)
    requires k < |list| && CatalogueOrdered(list, catalogue)
    ensures CatalogueOrdered(list[..k] + list[k + 1..], catalogue)
  {
    var r := list[..k] + list[k + 1..];
    forall i, j | 0 <= i < j < |r| && FindIndex(catalogue, r[i].name) >= 0
      ensures FindIndex(catalogue, r[j].name) == -1 ||
              FindIndex(catalogue, r[i].name) <= FindIndex(catalogue, r[j].name)
    {
      var i', j' := if i < k then i else i + 1, if j < k then j else j + 1;
      assert r[i] == list[i'] && r[j] == list[j'];
    }
  }

  /** In an ordered list, no catalogued parameter from the insertion point on comes before entry `index`. */
  lemma AfterInsertionPoint(list: seq<Param>, catalogue: seq<Param>, index: nat, j: nat)
    requires CatalogueOrdered(list, catalogue)
    requires InsertionPoint(list, catalogue, index) <= j < |list|
    ensures FindIndex(catalogue, list[j].name) == -1 || FindIndex(catalogue, list[j].name) > index
  {
    var k := InsertionPoint(list, catalogue, index);
    assert FindIndex(catalogue, list[k].name) > index;
  }

  /** One pair of positions of the list with entry `index` put at its insertion point. */
  lemma InsertedPairOrdered(list: seq<Param>, catalogue: seq<Param>, index: nat, i: nat, j: nat)
    requires index < |catalogue| && DistinctNames(catalogue)
    requires CatalogueOrdered(list, catalogue)
    requires var k := InsertionPoint(list, catalogue, index);
             i < j < |list| + 1 && FindIndex(catalogue, (list[..k] + [catalogue[index]] + list[k..])[i].name) >= 0
    ensures var k := InsertionPoint(list, catalogue, index);
            var r := list[..k] + [catalogue[index]] + list[k..];
            FindIndex(catalogue, r[j].name) == -1 || FindIndex(catalogue, r[i].name) <= FindIndex(catalogue, r[j].name)
  {
    var k := InsertionPoint(list, catalogue, index);
    var r := list[..k] + [catalogue[index]] + list[k..];
    assert FindIndex(catalogue, catalogue[index].name) == index;
    if i == k {
      assert r[j] == list[j - 1];
      AfterInsertionPoint(list, catalogue, index, j - 1);
    } else if j == k {
      assert r[i] == list[i];
    } else {
      assert r[i] == list[if i < k then i else i - 1];
      assert r[j] == list[if j < k then j else j - 1];
    }
  }

  /**
   * Putting catalogue entry `index` at its insertion point keeps catalogue
   * order, provided the catalogue's names are distinct.
   */
  lemma InsertionKeepsOrder(list: seq<Param>, catalogue: seq<Param>, index: nat)
    requires index < |catalogue| && DistinctNames(catalogue)
    requires CatalogueOrdered(list, catalogue)
    ensures var k := InsertionPoint(list, catalogue, index);
            CatalogueOrdered(list[..k] + [catalogue[index]] + list[k..], catalogue)
  {
    var k := InsertionPoint(list, catalogue, index);
    var r := list[..k] + [catalogue[index]] + list[k..];
    forall i, j | 0 <= i < j < |r| && FindIndex(catalogue, r[i].name) >= 0
      ensures FindIndex(catalogue, r[j].name) == -1 ||
              FindIndex(catalogue, r[i].name) <= FindIndex(catalogue, r[j].name)
    {
      InsertedPairOrdered(list, catalogue, index, i, j);
    }
  }

  /** Toggling a catalogue entry keeps the catalogued parameters in catalogue order. */
  lemma ToggleKeepsOrder(list: seq<Param>, catalogue: seq<Param>, index: nat)
    requires index < |catalogue| && DistinctNames(catalogue)
    requires CatalogueOrdered(list, catalogue)
    ensures CatalogueOrdered(Toggle(list, catalogue, index), catalogue)
  {
    var parameter := catalogue[index];
    if Count(list, parameter.name) > 0 {
      RemovalKeepsOrder(list, catalogue, FirstNamed(list, parameter.name));
    } else {
      InsertionKeepsOrder(list, catalogue, index);
    }
  }

  // ---- the component ----

  /** The manufacturer setting: a 32-bit enumeration value. */
  newtype Manufacturer = x: int | -0x8000_0000 <= x < 0x8000_0000

  const ABB: Manufacturer := 0

  /** The archive a document saves a component to: typed entries under string keys. */
  class Archive {
    var ints: map<string, Manufacturer>
    var bools: map<string, bool>

    constructor ()
      ensures ints == map[] && bools == map[]
    {
      ints, bools := map[], map[];
    }
  }

  /** The four sticky settings. */
  datatype Settings = Settings(manufacturer: Manufacturer, toolWeight: bool, declaration: bool, relTool: bool)

  class CreateTool {
    var manufacturer: Manufacturer
    var toolWeight: bool
    var declaration: bool
    var relTool: bool
    var inputs: seq<Param>
    var outputs: seq<Param>

    /** The sticky settings. */
    function CurrentSettings(): Settings
      reads this
    {
      Settings(manufacturer, toolWeight, declaration, relTool)
    }

    /** Each optional parameter is on its list exactly when its toggle is on, and then once. */
    predicate Synced()
      reads this
    {
      && Count(inputs, WeightParam.name) == (if toolWeight then 1 else 0)
      && Count(inputs, OffsetParam.name) == (if relTool then 1 else 0)
      && Count(outputs, DeclarationParam.name) == (if declaration then 1 else 0)
    }

    /** A new component: manufacturer ABB, every toggle off, only the fixed parameters. */
    constructor ()
      ensures CurrentSettings() == Settings(ABB, false, false, false)
      ensures inputs == [NameParam, TcpParam, MeshParam] && outputs == [ToolParam]
      ensures Synced()
    {
      manufacturer := ABB;
      toolWeight, declaration, relTool := false, false, false;
      inputs := [NameParam, TcpParam, MeshParam];
      outputs := [ToolParam];
      new;
      CountAbsent(inputs, WeightParam.name);
      CountAbsent(inputs, OffsetParam.name);
      CountAbsent(outputs, DeclarationParam.name);
    }

    /** Adds optional input `index`, or removes it when it is already there. */
    method AddInput(index: nat)
      requires index < |InputCatalogue|
      modifies this`inputs
      ensures inputs == Toggle(old(inputs), InputCatalogue, index)
    {
      var parameter := InputCatalogue[index];
      if Count(inputs, parameter.name) > 0 {
        inputs := Unregister(inputs, parameter.name);
      } else {
        var insertIndex := InsertIndex(inputs, InputCatalogue, index);
        inputs := inputs[..insertIndex] + [parameter] + inputs[insertIndex..];
      }
    }

    /** Adds optional output `index`, or removes it when it is already there. */
    method AddOutput(index: nat)
      requires index < |OutputCatalogue|
      modifies this`outputs
      ensures outputs == Toggle(old(outputs), OutputCatalogue, index)
    {
      var parameter := OutputCatalogue[index];
      if Count(outputs, parameter.name) > 0 {
        outputs := Unregister(outputs, parameter.name);
      } else {
        var insertIndex := InsertIndex(outputs, OutputCatalogue, index);
        outputs := outputs[..insertIndex] + [parameter] + outputs[insertIndex..];
      }
    }

    /** The "Define Tool Weight" toggle. */
    method WeightClick()
      modifies this`toolWeight, this`inputs
      ensures toolWeight == !old(toolWeight)
      ensures inputs == if toolWeight then Toggle(old(inputs), InputCatalogue, 0)
                        else Unregister(old(inputs), WeightParam.name)
      ensures old(Synced()) ==> Synced()
    {
      toolWeight := !toolWeight;
      if toolWeight {
        AddInput(0);
      } else {
        inputs := Unregister(inputs, WeightParam.name);
      }
      ToggleCount(old(inputs), InputCatalogue, 0, OffsetParam.name);
      ToggleCount(old(inputs), InputCatalogue, 0, WeightParam.name);
      UnregisterCount(old(inputs), WeightParam.name, OffsetParam.name);
      UnregisterCount(old(inputs), WeightParam.name, WeightParam.name);
    }

    /** The "Create Declaration" toggle. */
    method DeclarationClick()
      modifies this`declaration, this`outputs
      ensures declaration == !old(declaration)
      ensures outputs == if declaration then Toggle(old(outputs), OutputCatalogue, 0)
                         else Unregister(old(outputs), DeclarationParam.name)
      ensures old(Synced()) ==> Synced()
    {
      declaration := !declaration;
      if declaration {
        AddOutput(0);
      } else {
        outputs := Unregister(outputs, DeclarationParam.name);
      }
      ToggleCount(old(outputs), OutputCatalogue, 0, DeclarationParam.name);
      UnregisterCount(old(outputs), DeclarationParam.name, DeclarationParam.name);
    }

    /** The "Relative Tool Offset" toggle. */
    method RelToolClick()
      modifies this`relTool, this`inputs
      ensures relTool == !old(relTool)
      ensures inputs == if relTool then Toggle(old(inputs), InputCatalogue, 1)
                        else Unregister(old(inputs), OffsetParam.name)
      ensures old(Synced()) ==> Synced()
    {
      relTool := !relTool;
      if relTool {
        AddInput(1);
      } else {
        inputs := Unregister(inputs, OffsetParam.name);
      }
      ToggleCount(old(inputs), InputCatalogue, 1, OffsetParam.name);
      ToggleCount(old(inputs), InputCatalogue, 1, WeightParam.name);
      UnregisterCount(old(inputs), OffsetParam.name, OffsetParam.name);
      UnregisterCount(old(inputs), OffsetParam.name, WeightParam.name);
    }

    /** Saves the four sticky settings under their keys. */
    method Write(writer: Archive)
      modifies writer
      ensures writer.ints == old(writer.ints)["Manufacturer" := manufacturer]
      ensures writer.bools == old(writer.bools)["Weight" := toolWeight]["Declaration" := declaration]
                                ["Relative Tool Offset" := relTool]
    {
      writer.ints := writer.ints["Manufacturer" := manufacturer];
      writer.bools := writer.bools["Weight" := toolWeight];
      writer.bools := writer.bools["Declaration" := declaration];
      writer.bools := writer.bools["Relative Tool Offset" := relTool];
    }

    /** Restores the four sticky settings from their keys. */
    method Read(reader: Archive)
      requires "Manufacturer" in reader.ints
      requires "Weight" in reader.bools && "Declaration" in reader.bools && "Relative Tool Offset" in reader.bools
      modifies this`manufacturer, this`toolWeight, this`declaration, this`relTool
      ensures CurrentSettings() == Settings(reader.ints["Manufacturer"], reader.bools["Weight"],
                                            reader.bools["Declaration"], reader.bools["Relative Tool Offset"])
    {
      manufacturer := reader.ints["Manufacturer"];
      toolWeight := reader.bools["Weight"];
      declaration := reader.bools["Declaration"];
      relTool := reader.bools["Relative Tool Offset"];
    }
  }

  /** The scan for the insertion point of catalogue entry `index`, as the component runs it. */
  method InsertIndex(list: seq<Param>, catalogue: seq<Param>, index: nat) returns (insertIndex: nat)
    ensures insertIndex <= |list|
    ensures forall i :: 0 <= i < insertIndex ==> FindIndex(catalogue, list[i].name) <= index
    ensures insertIndex < |list| ==> FindIndex(catalogue, list[insertIndex].name) > index
    ensures insertIndex == InsertionPoint(list, catalogue, index)
  {
    insertIndex := |list|;
    for i := 0 to |list|
      invariant forall j :: 0 <= j < i ==> FindIndex(catalogue, list[j].name) <= index
    {
      var otherIndex := FindIndex(catalogue, list[i].name);
      if otherIndex > index {
        insertIndex := i;
        break;
      }
    }
    InsertionPointUnique(list, catalogue, index, insertIndex);
  }

  /** The insertion point is the only position with its two defining properties. */
  lemma {:induction false} InsertionPointUnique(list: seq<Param>, catalogue: seq<Param>, index: nat, k: nat)
    requires k <= |list|
    requires forall i :: 0 <= i < k ==> FindIndex(catalogue, list[i].name) <= index
    requires k < |list| ==> FindIndex(catalogue, list[k].name) > index
    ensures k == InsertionPoint(list, catalogue, index)
  {
    if k > 0 {
      assert FindIndex(catalogue, list[0].name) <= index;
      assert forall i :: 0 <= i < k - 1 ==> list[1..][i] == list[i + 1];
      InsertionPointUnique(list[1..], catalogue, index, k - 1);
    }
  }

  /** A list with no parameter named `name` counts none. */
  lemma {:induction false} CountAbsent(list: seq<Param>, name: string)
    requires forall i :: 0 <= i < |list| ==> list[i].name != name
    ensures Count(list, name) == 0
  {
    if list != [] {
      CountAbsent(list[1..], name);
    }
  }

  /**
   * Saving a component and reading the archive into another restores the
   * four sticky settings.
   */
  method SaveAndRestore(source: CreateTool, target: CreateTool, archive: Archive)
    modifies archive, target
    ensures target.CurrentSettings() == old(source.CurrentSettings())
  {
    source.Write(archive);
    target.Read(archive);
  }
}
