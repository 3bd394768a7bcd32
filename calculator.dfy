/**
 * The calculator screen: two input strings, an operator chosen from a fixed
 * table through a dropdown, and the result a remote endpoint computes.
 *
 * The HTTP exchange is outside the model: the endpoint's answer is a
 * parameter, and the conversion of an input string to a number is a function
 * the screen is given.
 */
module Calculator {

  /** An entry of the operator table: the symbol sent as `action` and the label shown in the dropdown. */
  datatype Op = Op(text: string, value: string)

  /** The operator table, in the order the dropdown lists it. */
  const Ops: seq<Op> := [
    Op("+", "Add ( + )"),
    Op("-", "Subtract ( - )"),
    Op("*", "Multiply ( x )")
  ]

  /** The JSON body posted to the endpoint: `{numbers: [a, b], action}`. */
  datatype RequestBody = RequestBody(numbers: seq<int>, action: string)

  /** The endpoint's answer: a decoded JSON object `{error?, result?}`, or a request that failed outright. */
  datatype Response = Json(error: bool, result: int) | Failed

  /** The body `fetchResult` sends: the two inputs converted in order, and the operator's symbol. */
  function Body(nums: (string, string), op: Op, parseInt: string -> int): (body: RequestBody)
    ensures body.action == op.text
    ensures |body.numbers| == 2
    ensures body.numbers[0] == parseInt(nums.0) && body.numbers[1] == parseInt(nums.1)
  {
    RequestBody([parseInt(nums.0), parseInt(nums.1)], op.text)
  }

  /**
   * The result shown after a response: the response's `result` when it has no
   * `error`; an error response or a failed request is only alerted and leaves
   * the result as it was.
   */
  function ResultAfter(res: int, response: Response): (shown: int)
    ensures response.Json? && !response.error ==> shown == response.result
    ensures response.Failed? || response.error ==> shown == res
  {
    match response
    case Json(error, result) => if error then res else result
    case Failed => res
  }

  /** Every operator of the table is one of the three the endpoint accepts. */
  lemma BodyActionIsArithmetic(nums: (string, string), op: Op, parseInt: string -> int)
    requires op in Ops
    ensures Body(nums, op, parseInt).action in {"+", "-", "*"}
  {
  }

  /** The `TabFourScreen` component's state; `op` is always an entry of the table. */
  class CalculatorScreen {
    var nums: (string, string)
    var op: Op
    var dropdown: bool
    var res: int
    const parseInt: string -> int

    ghost predicate Valid()
      reads this
    {
      op in Ops
    }

    /** The screen as it mounts: result 0, operator "+", dropdown closed, both inputs empty. */
    constructor (parseInt: string -> int)
      ensures Valid()
      ensures res == 0 && op == Ops[0] && op.text == "+" && !dropdown && nums == ("", "")
      ensures this.parseInt == parseInt
    {
      this.parseInt := parseInt;
      res, op, dropdown, nums := 0, Ops[0], false, ("", "");
    }

    /** Typing in the first input replaces it and keeps the second. */
    method EditFirst(text: string)
      requires Valid()
      modifies this
      ensures Valid()
      ensures nums == (text, old(nums).1)
      ensures op == old(op) && dropdown == old(dropdown) && res == old(res)
    {
      nums := (text, nums.1);
    }

    /** Typing in the second input replaces it and keeps the first. */
    method EditSecond(text: string)
      requires Valid()
      modifies this
      ensures Valid()
      ensures nums == (old(nums).0, text)
      ensures op == old(op) && dropdown == old(dropdown) && res == old(res)
    {
      nums := (nums.0, text);
    }

    /** Pressing the operator opens the dropdown. */
    method OpenDropdown()
      requires Valid()
      modifies this
      ensures Valid()
      ensures dropdown
      ensures nums == old(nums) && op == old(op) && res == old(res)
    {
      dropdown := true;
    }

    /**
     * Choosing the `k`-th item of the dropdown makes it the operator and closes
     * the dropdown. The items are hidden unless the dropdown is open.
     */
    method SelectOp(k: nat)
      requires Valid() && dropdown && k < |Ops|
      modifies this
      ensures Valid()
      ensures op == Ops[k] && !dropdown
      ensures nums == old(nums) && res == old(res)
    {
      op := Ops[k];
      dropdown := false;
    }

    /**
     * `fetchResult`: post the body built from the current inputs and operator,
     * then show what the response yields.
     */
    method FetchResult(response: Response) returns (body: RequestBody)
      requires Valid()
      modifies this
      ensures Valid()
      ensures body.action == old(op).text && body.action in {"+", "-", "*"}
      ensures body.numbers == [parseInt(old(nums).0), parseInt(old(nums).1)]
      ensures res == ResultAfter(old(res), response)
      ensures nums == old(nums) && op == old(op) && dropdown == old(dropdown)
    {
      body := Body(nums, op, parseInt);
      BodyActionIsArithmetic(nums, op, parseInt);
      res := ResultAfter(res, response);
    }
  }
}
