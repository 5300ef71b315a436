/**
 What happens to the governed actions of a turn that has used up its number of actions.
 */
module ActionCap {
  datatype CapBehavior = Escalate | AlwaysApprove | AlwaysDeny
}
