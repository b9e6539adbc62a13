/**
 * The graph-settings dialog: dropdown options built from the database's node labels and
 * relationship types, the two selections, and the "Use Existing Schema" checkbox.
 */
module Settings {
  import opened Types

  /** At most this many labels (and, separately, relationship types) are offered. */
  const MaxOptions: nat := 20

  function Min(a: nat, b: nat): nat
  {
    if a <= b then a else b
  }

  /** The dropdown entries for a list of names: the first twenty, each as its own value and label. */
  function Options(names: seq<string>): (r: seq<OptionType>)
    ensures |r| == Min(MaxOptions, |names|)
    ensures forall i :: 0 <= i < |r| ==> r[i].value == names[i] && r[i].labelText == names[i]
  {
    var kept := names[..Min(MaxOptions, |names|)];
    seq(|kept|, i requires 0 <= i < |kept| => OptionType(kept[i], kept[i]))
  }

  /** The values of a list of options. */
  function Values(options: seq<OptionType>): (r: seq<string>)
    ensures |r| == |options|
  {
    seq(|options|, i requires 0 <= i < |options| => options[i].value)
  }

  /** An option list as built here: at most twenty entries, each with equal value and label. */
  predicate WellFormed(options: seq<OptionType>)
  {
    |options| <= MaxOptions && forall o :: o in options ==> o.value == o.labelText
  }

  /** The option values are the leading names, in order; building options from those values
      gives the same options back. */
  lemma OptionsRoundTrip(names: seq<string>)
    ensures WellFormed(Options(names))
    ensures Values(Options(names)) == names[..Min(MaxOptions, |names|)]
    ensures Options(Values(Options(names))) == Options(names)
  {
  }

  /** One row of the labels query. */
  datatype SchemaRecord = SchemaRecord(labels: seq<string>, relationshipTypes: seq<string>)

  /** What the labels request produced: its rows, or a failure. */
  datatype SchemaResponse = SchemaRejected | SchemaRows(data: seq<SchemaRecord>)

  class SettingsModal {
    var nodeLabelOptions: seq<OptionType>
    var relationshipTypeOptions: seq<OptionType>
    var selectedNodes: seq<OptionType>
    var selectedRels: seq<OptionType>

    /** The offered options are always lists as `Options` builds them. */
    ghost predicate Valid()
      reads this
    {
      WellFormed(nodeLabelOptions) && WellFormed(relationshipTypeOptions)
    }

    /** The dialog starts without options; the selections come from the application. */
    constructor (selectedNodes: seq<OptionType>, selectedRels: seq<OptionType>)
      ensures Valid()
      ensures nodeLabelOptions == [] && relationshipTypeOptions == []
      ensures this.selectedNodes == selectedNodes && this.selectedRels == selectedRels
    {
      nodeLabelOptions := [];
      relationshipTypeOptions := [];
      this.selectedNodes := selectedNodes;
      this.selectedRels := selectedRels;
    }

    /** Loading the options with credentials present: both lists come from the first row of the
        response; a failed request, or one without rows, leaves the options as they were. */
    method LoadOptions(hasCredentials: bool, response: SchemaResponse)
      requires Valid()
      modifies this`nodeLabelOptions, this`relationshipTypeOptions
      ensures Valid()
      ensures hasCredentials && response.SchemaRows? && response.data != [] ==>
        && nodeLabelOptions == Options(response.data[0].labels)
        && relationshipTypeOptions == Options(response.data[0].relationshipTypes)
      ensures !(hasCredentials && response.SchemaRows? && response.data != []) ==>
        nodeLabelOptions == old(nodeLabelOptions) && relationshipTypeOptions == old(relationshipTypeOptions)
    {
      if hasCredentials && response.SchemaRows? && response.data != [] {
        var first := response.data[0];
        var nodelabels := Options(first.labels);
        var reltypes := Options(first.relationshipTypes);
        OptionsRoundTrip(first.labels);
        OptionsRoundTrip(first.relationshipTypes);
        nodeLabelOptions := nodelabels;
        relationshipTypeOptions := reltypes;
      }
    }

    /** "Use Existing Schema": ticking selects every offered option, so the selections are
        well-formed option lists too; unticking clears both. */
    method ClickHandler(checked: bool)
      requires Valid()
      modifies this`selectedNodes, this`selectedRels
      ensures Valid()
      ensures checked ==> selectedNodes == nodeLabelOptions && selectedRels == relationshipTypeOptions
      ensures checked ==> WellFormed(selectedNodes) && WellFormed(selectedRels)
      ensures !checked ==> selectedNodes == [] && selectedRels == []
    {
      if checked {
        selectedNodes := nodeLabelOptions;
        selectedRels := relationshipTypeOptions;
      } else {
        selectedNodes := [];
        selectedRels := [];
      }
    }

    /** The node-label dropdown replaces the node selection and nothing else. */
    method ChangeNodes(selectedOptions: seq<OptionType>)
      modifies this`selectedNodes
      ensures selectedNodes == selectedOptions
    {
      selectedNodes := selectedOptions;
    }

    /** The relationship-type dropdown replaces the relationship selection and nothing else. */
    method ChangeRels(selectedOptions: seq<OptionType>)
      modifies this`selectedRels
      ensures selectedRels == selectedOptions
    {
      selectedRels := selectedOptions;
    }
  }
}
