/** Steps that may be the last of their call. */
module Faults {
  /** How a step ends: it works, or it throws (or the machine dies) before or after taking effect. */
  datatype Step = Works | FailsBefore | FailsAfter

  /** How the next step of a plan ends; a call that runs out of its plan is cut off. */
  function Ends(plan: seq<Step>): Step {
    if plan == [] then FailsBefore else plan[0]
  }

  function Rest(plan: seq<Step>): seq<Step> {
    if plan == [] then [] else plan[1..]
  }
}
