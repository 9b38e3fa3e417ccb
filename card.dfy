/** The task card of the dashboard: status colour and contributor chips. */
module Card {

  /** `getStatusColor`: a `switch` with a default, so every status gets a colour class. */
  function StatusColor(status: string): (c: string)
    ensures status == "todo" ==> c == "text-gray-200"
    ensures status == "on progress" ==> c == "text-yellow-600"
    ensures status == "done" ==> c == "text-green-600"
    ensures status != "todo" && status != "on progress" && status != "done" ==> c == "text-gray-500"
  {
    match status
    case "todo" => "text-gray-200"
    case "on progress" => "text-yellow-600"
    case "done" => "text-green-600"
    case _ => "text-gray-500"
  }

  /** The three known statuses get three different colours, none of them the default one. */
  lemma StatusColorsDistinct()
    ensures StatusColor("todo") != StatusColor("on progress")
    ensures StatusColor("on progress") != StatusColor("done")
    ensures StatusColor("done") != StatusColor("todo")
    ensures forall s :: StatusColor(s) == "text-gray-500" <==> s != "todo" && s != "on progress" && s != "done"
  {
  }

  /** A contributor chip, keyed by its position. */
  datatype Chip = Chip(key: nat, text: string)

  /** `contributors.map(...)`: one chip per contributor, in the given order. */
  function Chips(contributors: seq<string>): (r: seq<Chip>)
    ensures |r| == |contributors|
    ensures forall i :: 0 <= i < |r| ==> r[i].text == contributors[i] && r[i].key == i
  {
    seq(|contributors|, i requires 0 <= i < |contributors| => Chip(i, contributors[i]))
  }
}
