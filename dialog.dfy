/** The random selection utility, with its randomness made an explicit index. */
module Dialog {

  /**
   * `chooseRandomMessage(options)`: the element at the drawn index. The
   * requires is the utility's own precondition: the list is non-empty and
   * the draw lies in `[0, |options|)`.
   */
  function ChooseRandomMessage(options: seq<string>, index: nat): (r: string)
    requires |options| > 0 && index < |options|
    ensures r in options
  {
    options[index]
  }

  /** Every element of a non-empty list can be chosen. */
  lemma EveryOptionCanBeChosen(options: seq<string>, s: string)
    requires s in options
    ensures exists index: nat :: index < |options| && ChooseRandomMessage(options, index) == s
  {
    var i :| 0 <= i < |options| && options[i] == s;
    assert ChooseRandomMessage(options, i) == s;
  }
}
