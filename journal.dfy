/**
 * The payment journal's process-method field: its selection list of
 * (value, label) options, to which the 34-01 module adds its own option when
 * the journal model is set up.
 */
module Journal {

  /** One choice of a selection field: the stored value and the label shown. */
  type SelectionOption = (string, string)

  /** The option the 34-01 module registers. */
  const Csb3401Option: SelectionOption := ("csb34_01", "CSB 34-01")

  /** The selection list after registering the 34-01 option: appended only when absent. */
  function WithCsb3401(selection: seq<SelectionOption>): (r: seq<SelectionOption>)
    ensures Csb3401Option in r
    ensures |selection| <= |r| <= |selection| + 1 && r[..|selection|] == selection
    ensures Csb3401Option in selection <==> r == selection
    ensures forall o | o in r :: o in selection || o == Csb3401Option
  {
    if Csb3401Option in selection then selection else selection + [Csb3401Option]
  }

  /** Registering twice leaves the selection as registering once does. */
  lemma WithCsb3401Idempotent(selection: seq<SelectionOption>)
    ensures WithCsb3401(WithCsb3401(selection)) == WithCsb3401(selection)
  {
  }

  /** The process-method field of the journal model, whose selection list is extended in place. */
  class ProcessMethodField {
    var selection: seq<SelectionOption>

    constructor (selection: seq<SelectionOption>)
      ensures this.selection == selection
    {
      this.selection := selection;
    }

    /** The journal's model setup: extend the selection with the 34-01 option unless it is already there. */
    method Setup()
      modifies this
      ensures selection == WithCsb3401(old(selection))
    {
      if Csb3401Option !in selection {
        selection := selection + [Csb3401Option];
      }
    }
  }
}
