/** The progress panel of client/src/components/CampaignProgress.tsx: whether
    the group price is unlocked, and how many people are still missing. */
module CampaignProgress {

  /** `current >= required`: nobody is missing any more. */
  predicate IsComplete(current: int, required: int)
    ensures IsComplete(current, required) <==> Remaining(current, required) == 0
  {
    current >= required
  }

  /** `Math.max(0, required - current)`. */
  function Remaining(current: int, required: int): (n: nat)
    ensures n >= required - current
    ensures n == 0 || n == required - current
  {
    if required - current > 0 then required - current else 0
  }

  /** The two branches of the panel: the unlocked message, or the progress
      line with the number of people still needed. */
  datatype ProgressView = Unlocked(required: int) | Locked(current: int, required: int, missing: nat)

  function View(current: int, required: int): (v: ProgressView)
    ensures v.Unlocked? <==> IsComplete(current, required)
    ensures v.Locked? ==> v.missing == required - current && v.missing > 0
    ensures v.Locked? ==> v.current == current && v.required == required
    ensures v.Unlocked? ==> v.required == required
  {
    if IsComplete(current, required) then Unlocked(required)
    else Locked(current, required, Remaining(current, required))
  }

  /** Each further participant lowers the number missing by one until none is. */
  lemma OneMoreParticipant(current: int, required: int)
    ensures Remaining(current + 1, required) ==
            if IsComplete(current, required) then 0 else Remaining(current, required) - 1
  {
  }
}
