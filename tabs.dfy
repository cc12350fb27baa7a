/** The two page tabs: order entry is always reachable, the plan tab only once
    planning is enabled. */
module Tabs {
  import opened Common

  /** The page's `activeTab`: "auftragserfassung" or "soll-plan". */
  datatype Tab = Auftragserfassung | SollPlanTab

  datatype TabButton = OrderButton | PlanButton

  /** The tab a click on `button` asks the page to switch to, if any. */
  function RequestedTab(button: TabButton, planningEnabled: bool): Option<Tab>
  {
    match button
    case OrderButton => Some(Auftragserfassung)
    case PlanButton => if planningEnabled then Some(SollPlanTab) else None
  }

  predicate ButtonDisabled(button: TabButton, planningEnabled: bool)
  {
    button == PlanButton && !planningEnabled
  }

  /** Whether `button` is drawn as the active tab. */
  predicate ShownActive(button: TabButton, activeTab: Tab, planningEnabled: bool)
  {
    match button
    case OrderButton => activeTab == Auftragserfassung
    case PlanButton => activeTab == SollPlanTab && planningEnabled
  }

  /** Order entry is always requested; the plan tab is requested, enabled and shown active
      only when planning is enabled; at most one tab is shown active. */
  lemma TabNavigationSpec(activeTab: Tab, planningEnabled: bool)
    ensures RequestedTab(OrderButton, planningEnabled) == Some(Auftragserfassung)
    ensures RequestedTab(PlanButton, planningEnabled).Some? <==> planningEnabled
    ensures RequestedTab(PlanButton, planningEnabled).Some? ==> RequestedTab(PlanButton, planningEnabled).value == SollPlanTab
    ensures ButtonDisabled(PlanButton, planningEnabled) <==> !planningEnabled
    ensures !ButtonDisabled(OrderButton, planningEnabled)
    ensures ShownActive(OrderButton, activeTab, planningEnabled) <==> activeTab == Auftragserfassung
    ensures ShownActive(PlanButton, activeTab, planningEnabled) <==> activeTab == SollPlanTab && planningEnabled
    ensures !(ShownActive(OrderButton, activeTab, planningEnabled) && ShownActive(PlanButton, activeTab, planningEnabled))
  {
  }
}
