/** The `getStatusColor` lookup shared by the list pages: the colour of the
    first status option whose value equals the status, and `'gray'` when no
    option matches. */
module StatusColors {

  datatype StatusOption = StatusOption(value: string, caption: string, color: string)

  function ColorOf(options: seq<StatusOption>, status: string): (c: string)
    ensures (forall i :: 0 <= i < |options| ==> options[i].value != status) ==> c == "gray"
    ensures forall i :: 0 <= i < |options| && options[i].value == status &&
                        (forall j :: 0 <= j < i ==> options[j].value != status) ==>
                          c == options[i].color
  {
    if options == [] then "gray"
    else if options[0].value == status then options[0].color
    else
      var c := ColorOf(options[1..], status);
      assert forall i :: 1 <= i < |options| ==> options[i] == options[1..][i - 1];
      c
  }

  /** The value of every option is distinct from every other's. */
  predicate DistinctValues(options: seq<StatusOption>) {
    forall i, j :: 0 <= i < j < |options| ==> options[i].value != options[j].value
  }

  /** Over a table of distinct values, the lookup returns the colour listed for
      a known status and `'gray'` for any other. */
  lemma ColorOfTable(options: seq<StatusOption>, status: string)
    requires DistinctValues(options)
    ensures forall i :: 0 <= i < |options| && options[i].value == status ==> ColorOf(options, status) == options[i].color
    ensures (forall i :: 0 <= i < |options| ==> options[i].value != status) ==> ColorOf(options, status) == "gray"
  {
  }
}
