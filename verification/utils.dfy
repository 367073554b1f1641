/**
 * The library-wide initialisation flags of src/aperture-utils.c. The two
 * static booleans become the fields of one LibraryState object; whether
 * GStreamer is already initialised is an input, and the critical message on
 * the console is the `warned` result.
 */
module Library {

  class LibraryState {
    /** `initialized`: aperture_init has run. */
    var initialized: bool
    /** `init_warning`: the "not initialized" warning has been printed. */
    var initWarning: bool

    /** Both flags start out FALSE. */
    constructor ()
      ensures !initialized && !initWarning
    {
      initialized, initWarning := false, false;
    }

    /**
     * aperture_init. `gstInitialized` is what gst_is_initialized() reports;
     * `calledGstInit` tells whether gst_init was invoked. A second call
     * changes nothing and does not invoke gst_init again.
     */
    method Init(gstInitialized: bool) returns (calledGstInit: bool)
      modifies this
      ensures initialized
      ensures initWarning == old(initWarning)
      ensures calledGstInit <==> !old(initialized) && !gstInitialized
    {
      calledGstInit := false;
      if initialized {
        return;
      }
      if !gstInitialized {
        calledGstInit := true;
      }
      initialized := true;
    }

    /** aperture_is_initialized. */
    function IsInitialized(): (r: bool)
      reads this
      ensures r <==> initialized
    {
      initialized
    }

    /**
     * aperture_private_ensure_initialized: warns when the library is used
     * before aperture_init, and only the first time.
     */
    method EnsureInitialized() returns (warned: bool)
      modifies this
      ensures warned <==> !old(initialized) && !old(initWarning)
      ensures initialized == old(initialized)
      ensures initWarning <==> old(initWarning) || warned
    {
      warned := false;
      if !initialized && !initWarning {
        warned := true;
        initWarning := true;
      }
    }
  }

  /**
   * A fresh library reports itself uninitialised, and initialised after
   * aperture_init; a repeated aperture_init does not call gst_init.
   */
  method InitThenQuery(gstInitialized: bool) returns (before: bool, after: bool, secondGstInit: bool)
    ensures !before && after && !secondGstInit
  {
    var lib := new LibraryState();
    before := lib.IsInitialized();
    var _ := lib.Init(gstInitialized);
    after := lib.IsInitialized();
    secondGstInit := lib.Init(gstInitialized);
  }

  /**
   * The warning is printed on the first use before initialisation, not on
   * the second, and never once the library has been initialised.
   */
  method WarnAtMostOnce(gstInitialized: bool) returns (first: bool, second: bool, afterInit: bool)
    ensures first && !second && !afterInit
  {
    var lib := new LibraryState();
    first := lib.EnsureInitialized();
    second := lib.EnsureInitialized();
    var other := new LibraryState();
    var _ := other.Init(gstInitialized);
    afterInit := other.EnsureInitialized();
  }
}
