/**
 * The name capsules of ffc/backends/dolfin/capsules.py: records of the class
 * names generated for one UFC form or one UFC element, built once by their
 * constructors and printed by `__str__`.
 */
module Capsules {
  import opened Text

  /** The header and field labels of UFCFormNames.__str__. */
  const FormHeader := "UFCFormNames instance:"
  const RankLabel := "rank:                      "
  const NumCoefficientsLabel := "num_coefficients:          "
  const NameLabel := "name:                      "
  const CoefficientNamesLabel := "coefficient_names:         "
  const FormClassnameLabel := "ufc_form_classname:        "
  const FiniteElementsLabel := "finite_element_classnames: "
  const FormDofmapsLabel := "ufc_dofmap_classnames:    "
  const FormCoordinateMappingsLabel := "ufc_coordinate_mapping_classnames:    "

  /** The header and field labels of UFCElementNames.__str__. */
  const ElementHeader := "UFCFiniteElementNames instance:"
  const ElementDofmapsLabel := "ufc_dofmap_classnames:     "
  const ElementCoordinateMappingsLabel := "ufc_coordinate_mapping_classnames: "

  /** The names related to a generated UFC form. */
  class UFCFormNames {
    var name: string
    var coefficientNames: seq<string>
    var ufcFormClassname: string
    var ufcFiniteElementClassnames: seq<string>
    var ufcDofmapClassnames: seq<string>
    var ufcCoordinateMappingClassnames: seq<string>
    var numCoefficients: nat
    var rank: int

    /**
     * The constructor's assertions hold and the two derived counts agree
     * with the lists: one finite element and one dofmap per argument and
     * coefficient.
     */
    predicate Valid()
      reads this
    {
      && |coefficientNames| <= |ufcDofmapClassnames|
      && |ufcFiniteElementClassnames| == |ufcDofmapClassnames|
      && numCoefficients == |coefficientNames|
      && rank == |ufcFiniteElementClassnames| - numCoefficients
    }

    /** `__init__`: checks the list lengths, derives the counts and stores every argument unchanged. */
    constructor (name: string, coefficientNames: seq<string>, ufcFormClassname: string,
                 ufcFiniteElementClassnames: seq<string>, ufcDofmapClassnames: seq<string>,
                 ufcCoordinateMappingClassnames: seq<string>)
      requires |coefficientNames| <= |ufcDofmapClassnames|
      requires |ufcFiniteElementClassnames| == |ufcDofmapClassnames|
      ensures Valid()
      ensures this.name == name && this.coefficientNames == coefficientNames
      ensures this.ufcFormClassname == ufcFormClassname
      ensures this.ufcFiniteElementClassnames == ufcFiniteElementClassnames
      ensures this.ufcDofmapClassnames == ufcDofmapClassnames
      ensures this.ufcCoordinateMappingClassnames == ufcCoordinateMappingClassnames
      ensures numCoefficients == |coefficientNames|
      ensures rank == |ufcFiniteElementClassnames| - |coefficientNames| && rank >= 0
    {
      this.numCoefficients := |coefficientNames|;
      this.rank := |ufcFiniteElementClassnames| - |coefficientNames|;
      this.name := name;
      this.coefficientNames := coefficientNames;
      this.ufcFormClassname := ufcFormClassname;
      this.ufcFiniteElementClassnames := ufcFiniteElementClassnames;
      this.ufcDofmapClassnames := ufcDofmapClassnames;
      this.ufcCoordinateMappingClassnames := ufcCoordinateMappingClassnames;
    }

    /** `__str__`: the header line, then one line per field, each ended by a line break. */
    function ToString(): string
      reads this
    {
      Terminated(FormFields(rank, numCoefficients, name, coefficientNames, ufcFormClassname,
                            ufcFiniteElementClassnames, ufcDofmapClassnames, ufcCoordinateMappingClassnames))
    }
  }

  /** A valid capsule always has a non-negative rank, and rank plus coefficients is the number of dofmaps. */
  lemma RankNonNegative(f: UFCFormNames)
    requires f.Valid()
    ensures f.rank >= 0
    ensures f.rank + f.numCoefficients == |f.ufcDofmapClassnames|
  {
  }

  /** The lines of UFCFormNames.__str__ for the given field values, without their line breaks. */
  function FormFields(rank: int, numCoefficients: int, name: string, coefficientNames: seq<string>,
                      formClassname: string, elements: seq<string>, dofmaps: seq<string>,
                      coordinateMappings: seq<string>): seq<string> {
    [ FormHeader,
      RankLabel + IntToString(rank),
      NumCoefficientsLabel + IntToString(numCoefficients),
      NameLabel + name,
      CoefficientNamesLabel + ListRepr(coefficientNames),
      FormClassnameLabel + formClassname,
      FiniteElementsLabel + ListRepr(elements),
      FormDofmapsLabel + ListRepr(dofmaps),
      FormCoordinateMappingsLabel + ListRepr(coordinateMappings) ]
  }

  lemma FormLabelsNoBreak()
    ensures '\n' !in FormHeader && '\n' !in RankLabel && '\n' !in NumCoefficientsLabel
  {
  }

  lemma NameLabelsNoBreak()
    ensures '\n' !in NameLabel && '\n' !in CoefficientNamesLabel && '\n' !in FormClassnameLabel
  {
  }

  lemma ListLabelsNoBreak()
    ensures '\n' !in FiniteElementsLabel && '\n' !in FormDofmapsLabel && '\n' !in FormCoordinateMappingsLabel
  {
  }

  lemma ElementLabelsNoBreak()
    ensures '\n' !in ElementHeader && '\n' !in ElementDofmapsLabel && '\n' !in ElementCoordinateMappingsLabel
  {
  }

  /**
   * When the form name and class name hold no line break, `__str__` has
   * exactly nine lines: the header, then the rank, then the other fields in
   * order, each list written as Python writes a list of strings.
   */
  lemma FormNamesLines(f: UFCFormNames)
    requires '\n' !in f.name && '\n' !in f.ufcFormClassname
    ensures Split(f.ToString(), '\n')
         == FormFields(f.rank, f.numCoefficients, f.name, f.coefficientNames, f.ufcFormClassname,
                       f.ufcFiniteElementClassnames, f.ufcDofmapClassnames, f.ufcCoordinateMappingClassnames) + [""]
    ensures |Split(f.ToString(), '\n')| == 10
    ensures Split(f.ToString(), '\n')[0] == FormHeader
    ensures Split(f.ToString(), '\n')[1] == RankLabel + IntToString(f.rank)
  {
    var ls := FormFields(f.rank, f.numCoefficients, f.name, f.coefficientNames, f.ufcFormClassname,
                         f.ufcFiniteElementClassnames, f.ufcDofmapClassnames, f.ufcCoordinateMappingClassnames);
    FormLabelsNoBreak();
    NameLabelsNoBreak();
    ListLabelsNoBreak();
    SplitTerminated(ls);
  }

  /** The names related to a generated UFC element. */
  class UFCElementNames {
    var name: string
    var ufcFiniteElementClassnames: seq<string>
    var ufcDofmapClassnames: seq<string>
    var ufcCoordinateMappingClassnames: seq<string>

    /** `__init__`: checks the list lengths and stores every argument unchanged. */
    constructor (name: string, ufcFiniteElementClassnames: seq<string>, ufcDofmapClassnames: seq<string>,
                 ufcCoordinateMappingClassnames: seq<string>)
      requires |ufcFiniteElementClassnames| == |ufcDofmapClassnames|
      requires |ufcFiniteElementClassnames| == |ufcCoordinateMappingClassnames|
      ensures this.name == name
      ensures this.ufcFiniteElementClassnames == ufcFiniteElementClassnames
      ensures this.ufcDofmapClassnames == ufcDofmapClassnames
      ensures this.ufcCoordinateMappingClassnames == ufcCoordinateMappingClassnames
    {
      this.name := name;
      this.ufcFiniteElementClassnames := ufcFiniteElementClassnames;
      this.ufcDofmapClassnames := ufcDofmapClassnames;
      this.ufcCoordinateMappingClassnames := ufcCoordinateMappingClassnames;
    }

    /** `__str__`: the header line, then one line per field, each ended by a line break. */
    function ToString(): string
      reads this
    {
      Terminated(ElementFields(name, ufcFiniteElementClassnames, ufcDofmapClassnames, ufcCoordinateMappingClassnames))
    }
  }

  /**
   * The lines of UFCElementNames.__str__ for the given field values. The
   * coordinate-mapping line prints the dofmap class names, as the source does.
   */
  function ElementFields(name: string, elements: seq<string>, dofmaps: seq<string>, coordinateMappings: seq<string>): seq<string> {
    [ ElementHeader,
      NameLabel + name,
      FiniteElementsLabel + ListRepr(elements),
      ElementDofmapsLabel + ListRepr(dofmaps),
      ElementCoordinateMappingsLabel + ListRepr(dofmaps) ]
  }

  /**
   * The coordinate-mapping class names never reach the output: two
   * capsules that differ only in them print the same text, which has five
   * lines, the last of them listing the dofmap names under the
   * coordinate-mapping label.
   */
  lemma ElementNamesIgnoreCoordinateMappings(e1: UFCElementNames, e2: UFCElementNames)
    requires e1.name == e2.name && '\n' !in e1.name
    requires e1.ufcFiniteElementClassnames == e2.ufcFiniteElementClassnames
    requires e1.ufcDofmapClassnames == e2.ufcDofmapClassnames
    ensures e1.ToString() == e2.ToString()
    ensures |Split(e1.ToString(), '\n')| == 6
    ensures Split(e1.ToString(), '\n')[4] == ElementCoordinateMappingsLabel + ListRepr(e1.ufcDofmapClassnames)
  {
    var ls := ElementFields(e1.name, e1.ufcFiniteElementClassnames, e1.ufcDofmapClassnames, e1.ufcCoordinateMappingClassnames);
    NameLabelsNoBreak();
    ListLabelsNoBreak();
    ElementLabelsNoBreak();
    SplitTerminated(ls);
  }
}
