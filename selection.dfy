/** The selection rule shared by `pickWorkspace`, `pickTemplate` and `pickSnippet`: no list
    (or an empty one) cancels the operation, a single item is taken without a question,
    and several items are offered in a `select` whose answer is one of them or cancel. */
module Selection {
  import opened Wrappers

  /** What a pick ends with: an item, or `cancelOperation()` (exit 0). `menus` are the
      `select` questions shown on the way, each as its option labels in order. */
  datatype Pick<+T> = Chosen(item: T, menus: seq<seq<string>>) | Aborted(menus: seq<seq<string>>)

  /** The option labels of a `select` over `items`, one per item, in list order. */
  function Labels<T>(items: seq<T>, labelOf: T -> string): (r: seq<string>)
    ensures |r| == |items|
    ensures forall i :: 0 <= i < |items| ==> r[i] == labelOf(items[i])
  {
    seq(|items|, i requires 0 <= i < |items| => labelOf(items[i]))
  }

  /** A `select` answer names one of the options shown: an index into the list. */
  predicate ValidChoice<T>(items: Option<seq<T>>, choice: Answer<nat>) {
    choice.Picked? && items.Some? && |items.value| > 1 ==> choice.value < |items.value|
  }

  /** The rule: `!items || items.length === 0` cancels; one item is taken as is; otherwise
      the answer to the `select` is taken, and a cancelled `select` cancels. */
  function SelectOne<T>(items: Option<seq<T>>, labelOf: T -> string, choice: Answer<nat>): (r: Pick<T>)
    requires ValidChoice(items, choice)
    ensures r == Aborted([]) <==> items.None? || items.value == []
    ensures items.Some? && |items.value| == 1 ==> r == Chosen(items.value[0], [])
    ensures items.Some? && |items.value| > 1 ==>
      r.menus == [Labels(items.value, labelOf)] &&
      (r.Aborted? <==> choice.Cancelled?) &&
      (r.Chosen? ==> r.item == items.value[choice.value])
    ensures r.Chosen? ==> items.Some? && r.item in items.value
  {
    if items.None? || items.value == [] then Aborted([])
    else if |items.value| == 1 then Chosen(items.value[0], [])
    else
      match choice
      case Cancelled => Aborted([Labels(items.value, labelOf)])
      case Picked(i) => Chosen(items.value[i], [Labels(items.value, labelOf)])
  }

}
