/** The admin's service form: the list of inclusions, which never becomes
    empty, and the submit that saves only the inclusions that are not
    blank. */
module ServiceModal {
  import opened Common
  import Strings
  import Seqs

  datatype Service = Service(id: string, name: string, description: string, priceRange: string,
                             inclusions: seq<string>, displayOrder: int, isActive: bool)

  /** The row a submit writes: the form with its non-blank inclusions. */
  datatype ServiceRow = ServiceRow(name: string, description: string, priceRange: string,
                                   inclusions: seq<string>, displayOrder: int, isActive: bool)

  datatype ServiceWrite = InsertService(row: ServiceRow) | UpdateService(id: string, row: ServiceRow)

  /** What a failed write threw: an `Error` with its message, or something
      else. */
  datatype Thrown = Thrown(isError: bool, message: string)

  const NO_INCLUSION: string := "Please add at least one inclusion"
  const FALLBACK_ERROR: string := "An error occurred"

  /** An entry that is not only white space. */
  predicate NonBlank(item: string) { !Strings.AllSpace(item) }

  /** That is the test `item.trim() !== ''`. */
  lemma NonBlankIsTrimTest(item: string)
    ensures NonBlank(item) <==> Strings.Trim(item) != ""
  {
    Strings.TrimEmptyIff(item);
  }

  /** `formData.inclusions.filter(item => item.trim() !== '')`. */
  function Saved(inclusions: seq<string>): seq<string> {
    Seqs.Filter(inclusions, NonBlank)
  }

  /** The saved inclusions keep their order, none of them trims to empty,
      and every inclusion that does not is among them. */
  lemma SavedProperties(inclusions: seq<string>)
    ensures var r := Saved(inclusions);
            Seqs.IsSubsequence(r, inclusions) &&
            (forall i :: 0 <= i < |r| ==> Strings.Trim(r[i]) != "") &&
            (forall i :: 0 <= i < |inclusions| && Strings.Trim(inclusions[i]) != "" ==> inclusions[i] in r)
  {
    Seqs.FilterIsSubsequence(inclusions, NonBlank);
    var r := Saved(inclusions);
    forall i | 0 <= i < |r|
      ensures Strings.Trim(r[i]) != ""
    {
      NonBlankIsTrimTest(r[i]);
    }
    forall i | 0 <= i < |inclusions| && Strings.Trim(inclusions[i]) != ""
      ensures inclusions[i] in r
    {
      NonBlankIsTrimTest(inclusions[i]);
    }
  }

  /** A list whose entries all trim to empty saves nothing, so the submit
      stops with its error. */
  lemma AllBlankSavesNothing(inclusions: seq<string>)
    requires forall i :: 0 <= i < |inclusions| ==> Strings.Trim(inclusions[i]) == ""
    ensures Saved(inclusions) == []
  {
    forall i | 0 <= i < |inclusions|
      ensures !NonBlank(inclusions[i])
    {
      NonBlankIsTrimTest(inclusions[i]);
    }
    Seqs.FilterDropsAll(inclusions, NonBlank);
  }

  /** `formData.inclusions.filter((_, i) => i !== index)`: an index outside
      the list removes nothing. */
  function RemoveAt(s: seq<string>, index: int): (r: seq<string>)
    ensures 0 <= index < |s| ==> |r| == |s| - 1 &&
                                 (forall i :: 0 <= i < index ==> r[i] == s[i]) &&
                                 (forall i :: index <= i < |r| ==> r[i] == s[i + 1])
    ensures !(0 <= index < |s|) ==> r == s
  {
    if 0 <= index < |s| then s[..index] + s[index + 1..] else s
  }

  class Form {
    var name: string
    var description: string
    var priceRange: string
    var inclusions: seq<string>
    var displayOrder: int
    var isActive: bool
    var error: string
    var loading: bool

    /** The form always shows at least one inclusion field. */
    predicate Valid()
      reads this
    {
      |inclusions| > 0
    }

    constructor ()
      ensures Valid() && inclusions == [""] && name == "" && description == "" && priceRange == ""
      ensures displayOrder == 0 && isActive && error == "" && !loading
    {
      name, description, priceRange := "", "", "";
      inclusions := [""];
      displayOrder := 0;
      isActive := true;
      error := "";
      loading := false;
    }

    /** The effect on opening: the service's fields, or an empty form. A
        service without inclusions starts with one empty field. */
    method Open(editing: Option<Service>)
      modifies this
      ensures Valid() && error == "" && loading == old(loading)
      ensures editing.Some? ==>
                name == editing.value.name && description == editing.value.description &&
                priceRange == editing.value.priceRange && displayOrder == editing.value.displayOrder &&
                isActive == editing.value.isActive &&
                inclusions == (if |editing.value.inclusions| > 0 then editing.value.inclusions else [""])
      ensures editing.None? ==>
                name == "" && description == "" && priceRange == "" && inclusions == [""] &&
                displayOrder == 0 && isActive
    {
      if editing.Some? {
        var s := editing.value;
        name, description, priceRange := s.name, s.description, s.priceRange;
        inclusions := if |s.inclusions| > 0 then s.inclusions else [""];
        displayOrder, isActive := s.displayOrder, s.isActive;
      } else {
        name, description, priceRange := "", "", "";
        inclusions := [""];
        displayOrder, isActive := 0, true;
      }
      error := "";
    }

    /** `addInclusion`: one more, empty, field at the end. */
    method AddInclusion()
      modifies this`inclusions
      ensures Valid() && inclusions == old(inclusions) + [""]
      ensures |inclusions| == |old(inclusions)| + 1 && inclusions[..|old(inclusions)|] == old(inclusions)
    {
      inclusions := inclusions + [""];
      assert inclusions[..|old(inclusions)|] == old(inclusions);
    }

    /** `removeInclusion`: the field at `index` goes, and a list left empty
        becomes one empty field. */
    method RemoveInclusion(index: int)
      modifies this`inclusions
      ensures Valid()
      ensures var rest := RemoveAt(old(inclusions), index);
              inclusions == (if |rest| > 0 then rest else [""])
    {
      var rest := RemoveAt(inclusions, index);
      inclusions := if |rest| > 0 then rest else [""];
    }

    /** `updateInclusion`: only the field at `index` changes. */
    method UpdateInclusion(index: nat, value: string)
      requires index < |inclusions|
      modifies this`inclusions
      ensures Valid() && |inclusions| == |old(inclusions)| && inclusions[index] == value
      ensures forall i :: 0 <= i < |inclusions| && i != index ==> inclusions[i] == old(inclusions)[i]
    {
      inclusions := inclusions[index := value];
    }

    function Row(): ServiceRow
      reads this
    {
      ServiceRow(name, description, priceRange, Saved(inclusions), displayOrder, isActive)
    }

    /** `handleSubmit`, given what the write threw, if anything. Without a
        non-blank inclusion nothing is written; otherwise the service is
        updated or inserted with only its non-blank inclusions, and the
        modal closes unless the write failed. */
    method HandleSubmit(editingId: Option<string>, writeError: Option<Thrown>)
      returns (issued: Option<ServiceWrite>, closed: bool)
      modifies this`error, this`loading
      ensures !loading
      ensures Saved(inclusions) == [] ==> issued.None? && !closed && error == NO_INCLUSION
      ensures Saved(inclusions) != [] ==>
                issued == Some(if editingId.Some? then UpdateService(editingId.value, Row()) else InsertService(Row()))
      ensures Saved(inclusions) != [] && writeError.None? ==> closed && error == ""
      ensures Saved(inclusions) != [] && writeError.Some? ==>
                !closed && error == (if writeError.value.isError then writeError.value.message else FALLBACK_ERROR)
    {
      loading := true;
      error := "";
      var filtered := Saved(inclusions);
      if filtered == [] {
        error := NO_INCLUSION;
        loading := false;
        return None, false;
      }
      var row := ServiceRow(name, description, priceRange, filtered, displayOrder, isActive);
      issued := Some(if editingId.Some? then UpdateService(editingId.value, row) else InsertService(row));
      closed := false;
      if writeError.Some? {
        error := if writeError.value.isError then writeError.value.message else FALLBACK_ERROR;
      } else {
        closed := true;
      }
      loading := false;
    }
  }
}
