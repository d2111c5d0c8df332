/** Failure kinds the comparators report, and the stream each one is printed on. */
module Diagnostics {

  /** Where a diagnostic line goes: nowhere, standard output ("ERROR ...")
      or standard error ("FATAL ERROR ..."). */
  datatype Channel = Silent | Stdout | Stderr

  /** What a comparator decided. Every comparator returns the C int 1 for `Ok`
      and 0 for every other kind. */
  datatype Status =
    | Ok            // the values are equal
    | NullInput     // one reference was NULL ("One string was empty!", "One path is empty!")
    | Mismatch      // the contents differ
    | SizeMismatch  // the byte counts read differ
    | Fatal         // malloc or fopen failed
  {
    /** The C return value of the comparator that decided this status. */
    function ReturnValue(): (r: int)
      ensures r == 0 || r == 1
      ensures r == 1 <==> Ok?
    {
      if Ok? then 1 else 0
    }

    /** The stream the comparator printed on before returning. */
    function Channel(): (c: Channel)
      ensures c == Silent <==> Ok?
      ensures c == Stderr <==> Fatal?
    {
      match this
      case Ok => Silent
      case Fatal => Stderr
      case _ => Stdout
    }
  }
}
