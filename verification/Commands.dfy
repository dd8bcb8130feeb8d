/** What the parts of the command path share. */
module Commands {
  import opened Basics

  datatype Status = Pending | Queued | Running | Completed | Cancelled | Failed | Timeout | Rejected

  predicate IsTerminal(status: Status) {
    status != Pending && status != Queued && status != Running
  }

  /** What a worker reports: an expired command times out, a thrown exception and a nonterminal
      result are failures. */
  function FinalStatus(expiredBefore: bool, returned: Option<Status>, expiredAfter: bool): (status: Status)
    ensures status in {Completed, Cancelled, Failed, Timeout, Rejected}
    ensures status == Completed <==> !expiredBefore && returned == Some(Completed) && !expiredAfter
    ensures status == Timeout <==>
      expiredBefore || returned == Some(Timeout) || (returned == Some(Completed) && expiredAfter)
    ensures status == Cancelled <==> !expiredBefore && returned == Some(Cancelled)
    ensures status == Rejected <==> !expiredBefore && returned == Some(Rejected)
  {
    if expiredBefore then Timeout
    else if returned.None? then Failed
    else if returned.value == Completed && expiredAfter then Timeout
    else if !IsTerminal(returned.value) then Failed
    else returned.value
  }

  /** The worker's branches over what the executor did. */
  method Conclude(expiredBefore: bool, returned: Option<Status>, expiredAfter: bool) returns (status: Status)
    ensures status == FinalStatus(expiredBefore, returned, expiredAfter)
  {
    if expiredBefore {
      return Timeout;
    }
    status := if returned.Some? then returned.value else Failed;
    if status == Completed && expiredAfter {
      status := Timeout;
    } else if !IsTerminal(status) {
      status := Failed;
    }
  }
}
