/**
 * The operating-system picker of the upload form's golden-image section: the
 * label of each OS option, the option list, the select's value, and which parts
 * of the section are shown. Translated texts are label constructors.
 */
module UploadPVCFormGoldenImage {
  import opened Wrappers

  /** An operating system offered for a golden image; `name` is `""` when unset. */
  datatype OperatingSystemRecord = OperatingSystemRecord(
    id: string,
    name: string,
    baseImageName: Option<string>,
    baseImageNamespace: Option<string>)

  /** A golden-image claim, by `metadata.name` and `metadata.namespace`. */
  datatype GoldenPvc = GoldenPvc(name: Option<string>, namespace: Option<string>)

  /** The texts an option can carry. */
  datatype OptionLabel =
    | PickOperatingSystem                       // "--- Pick an Operating system ---"
    | DataImageAlreadyExists(nameOrId: string)  // "{{nameOrId}} - Default data image already exists"
    | MissingDataImageDefinition(nameOrId: string)  // "{{nameOrId}} - Template missing data image definition"
    | PlainName(text: string)

  datatype SelectOption = SelectOption(optionLabel: OptionLabel, value: string, isDisabled: bool)

  /** The section as rendered: the select's value and options, and which optional parts are shown. */
  datatype GoldenImageForm = GoldenImageForm(
    value: string,
    options: seq<SelectOption>,
    showTemplateCheckboxes: bool,
    showAlreadyDefinedAlert: bool)

  /** `name || id` */
  function NameOrId(os: OperatingSystemRecord): string
  {
    if os.name != "" then os.name else os.id
  }

  /** The claim is the OS's base image: same name and same namespace (both possibly unset). */
  predicate IsBaseImageOf(pvc: GoldenPvc, os: OperatingSystemRecord)
  {
    pvc.name == os.baseImageName && pvc.namespace == os.baseImageNamespace
  }

  /** `goldenPvcs.find(...)`: the first claim that is the OS's base image. */
  function FindGoldenPvc(pvcs: seq<GoldenPvc>, os: OperatingSystemRecord): (r: Option<GoldenPvc>)
    ensures r.Some? <==> exists p :: p in pvcs && IsBaseImageOf(p, os)
    ensures r.Some? ==> exists i :: 0 <= i < |pvcs| && pvcs[i] == r.value && IsBaseImageOf(pvcs[i], os)
                                    && forall j :: 0 <= j < i ==> !IsBaseImageOf(pvcs[j], os)
  {
    if |pvcs| == 0 then None
    else if IsBaseImageOf(pvcs[0], os) then Some(pvcs[0])
    else
      var r := FindGoldenPvc(pvcs[1..], os);
      assert forall p :: p in pvcs[1..] ==> p in pvcs;
      assert forall p :: p in pvcs && p != pvcs[0] ==> p in pvcs[1..];
      if r.Some? then
        var i :| 0 <= i < |pvcs[1..]| && pvcs[1..][i] == r.value && IsBaseImageOf(pvcs[1..][i], os)
                  && forall j :: 0 <= j < i ==> !IsBaseImageOf(pvcs[1..][j], os);
        assert pvcs[i + 1] == r.value;
        r
      else r
  }

  /** `!baseImageName`: unset or empty. */
  predicate MissingBaseImageName(os: OperatingSystemRecord)
  {
    os.baseImageName == None || os.baseImageName == Some("")
  }

  /**
   * The label of an OS option: "already exists" when a golden claim is its base image,
   * else "missing data image definition" when it has no base image name, else its
   * name, or its id when it has no name.
   */
  function OsLabel(os: OperatingSystemRecord, pvcs: seq<GoldenPvc>): (r: OptionLabel)
    ensures r.DataImageAlreadyExists? <==> exists p :: p in pvcs && IsBaseImageOf(p, os)
    ensures r.MissingDataImageDefinition? <==>
      (forall p :: p in pvcs ==> !IsBaseImageOf(p, os)) && MissingBaseImageName(os)
    ensures r.PlainName? <==>
      (forall p :: p in pvcs ==> !IsBaseImageOf(p, os)) && !MissingBaseImageName(os)
    ensures r != PickOperatingSystem
    ensures r.DataImageAlreadyExists? ==> r.nameOrId == NameOrId(os)
    ensures r.MissingDataImageDefinition? ==> r.nameOrId == NameOrId(os)
    ensures r.PlainName? ==> r.text == NameOrId(os)
  {
    var goldenPvc := FindGoldenPvc(pvcs, os);
    if goldenPvc.Some? then DataImageAlreadyExists(NameOrId(os))
    else if MissingBaseImageName(os) then MissingDataImageDefinition(NameOrId(os))
    else PlainName(NameOrId(os))
  }

  /** The placeholder first, disabled once an OS is picked, then one option per OS in input order. */
  function Options(selected: Option<OperatingSystemRecord>, operatingSystems: seq<OperatingSystemRecord>,
                   pvcs: seq<GoldenPvc>): (r: seq<SelectOption>)
    ensures |r| == |operatingSystems| + 1
    ensures r[0] == SelectOption(PickOperatingSystem, "", selected.Some?)
    ensures forall i :: 0 <= i < |operatingSystems| ==>
      r[i + 1] == SelectOption(OsLabel(operatingSystems[i], pvcs), operatingSystems[i].id, false)
  {
    [SelectOption(PickOperatingSystem, "", selected.Some?)]
    + seq(|operatingSystems|, i requires 0 <= i < |operatingSystems| =>
            SelectOption(OsLabel(operatingSystems[i], pvcs), operatingSystems[i].id, false))
  }

  /** `os?.id || ''` */
  function SelectValue(selected: Option<OperatingSystemRecord>): (v: string)
    ensures selected.Some? ==> v == selected.value.id
    ensures selected.None? ==> v == ""
    ensures v == "" <==> selected.None? || selected.value.id == ""
  {
    if selected.Some? then selected.value.id else ""
  }

  /** The rendered section. `osImageExists` is decided by the form that holds this section. */
  function RenderGoldenImageForm(selected: Option<OperatingSystemRecord>, osImageExists: bool,
                                 operatingSystems: seq<OperatingSystemRecord>, pvcs: seq<GoldenPvc>)
    : (f: GoldenImageForm)
    ensures selected.Some? ==> f.value == selected.value.id
    ensures selected.None? ==> f.value == ""
    ensures f.options == Options(selected, operatingSystems, pvcs)
    ensures |f.options| == |operatingSystems| + 1
    ensures f.options[0].value == "" && (f.options[0].isDisabled <==> selected.Some?)
    ensures forall i :: 1 <= i < |f.options| ==> !f.options[i].isDisabled
    ensures f.showTemplateCheckboxes <==> selected.Some?
    ensures f.showAlreadyDefinedAlert <==> osImageExists
  {
    GoldenImageForm(SelectValue(selected), Options(selected, operatingSystems, pvcs), selected.Some?, osImageExists)
  }

  /**
   * The select's value always names an option: the placeholder when nothing is
   * picked, the picked OS's own option when it is one of the offered systems.
   */
  lemma SelectValueIsOffered(selected: Option<OperatingSystemRecord>, osImageExists: bool,
                              operatingSystems: seq<OperatingSystemRecord>, pvcs: seq<GoldenPvc>)
    requires selected.Some? ==> selected.value in operatingSystems
    ensures var f := RenderGoldenImageForm(selected, osImageExists, operatingSystems, pvcs);
      exists k :: 0 <= k < |f.options| && f.options[k].value == f.value
    ensures var f := RenderGoldenImageForm(selected, osImageExists, operatingSystems, pvcs);
      selected.None? ==> f.options[0].value == f.value && f.options[0].optionLabel == PickOperatingSystem
    ensures var f := RenderGoldenImageForm(selected, osImageExists, operatingSystems, pvcs);
      forall i :: 0 <= i < |operatingSystems| && Some(operatingSystems[i]) == selected ==>
        f.options[i + 1].value == f.value && f.options[i + 1].optionLabel == OsLabel(selected.value, pvcs)
  {
    var f := RenderGoldenImageForm(selected, osImageExists, operatingSystems, pvcs);
    if selected.Some? {
      var i :| 0 <= i < |operatingSystems| && operatingSystems[i] == selected.value;
      assert f.options[i + 1].value == f.value;
    } else {
      assert f.options[0].value == f.value;
    }
  }

  /** The labels depend on which golden claims exist, not on the order they are listed in. */
  lemma LabelIgnoresPvcOrder(os: OperatingSystemRecord, pvcs1: seq<GoldenPvc>, pvcs2: seq<GoldenPvc>)
    requires multiset(pvcs1) == multiset(pvcs2)
    ensures OsLabel(os, pvcs1) == OsLabel(os, pvcs2)
  {
    assert forall p :: p in pvcs1 <==> p in multiset(pvcs1);
    assert forall p :: p in pvcs2 <==> p in multiset(pvcs2);
  }
}
