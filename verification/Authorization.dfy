/** Who may do what: roles, the owner's mark, and the ownership of what is acted on. */
module Authorization {
  import opened Wrappers

  datatype Role = Anonymous | Buyer | Operator | Auditor

  datatype Action =
    | ArtworkViewPublic | ArtworkViewUnpublished | ArtworkManage | ListingManage | ArtworkCreateOwn |
    ArtworkManageOwn | ListingManageOwn | OrderCreate | OrderView | OrderViewAny | OrderLookupBuyer |
    OrderNote | OrderRefund | RefundRequestView | RefundRequestInvestigate | RefundRequestApprove |
    RefundRequestRetryIntegration | RefundInquiryAnswerOwn | CustomerView | CustomerNote |
    CustomerViewEmail | CustomerEmailChange | CheckoutCreate | ClaimInspect | ClaimAccept | ClaimReissue |
    CollectionView | MintJobRetry | AuditLogView | StaffView | StaffInvite | StaffManage | IntegrationView |
    IntegrationManage | IntegrationManageSecret | WalletDeliveryRetry | OperationsReviewView |
    OperationsReviewResolve | NotificationView | NotificationEdit | NotificationPublish |
    NotificationResend | OperationsView | OperationsRetry | OperationsAlertManage | ProductionView |
    ProductionAttest | ProductionMailCheck | LegalView | LegalEdit | LegalPublish | LegalConsent |
    PaymentCredentialView | PaymentCredentialManage | SettlementView | SettlementManage | PayoutView |
    PayoutManage | PayoutMarkPaid | PayoutAccountViewFull | SalesReportView | CreatorView |
    ProfileManageOwn | CreatorEarningsViewOwn

  datatype Actor = Actor(role: Role, accountId: Option<string>, isActive: bool, isOwner: bool)

  datatype DenyReason = Unauthenticated | InactiveAccount | RoleNotPermitted | NotOwner | NotSiteOwner

  datatype Decision = Allow | Deny(reason: DenyReason)

  /** What is not listed is denied. */
  predicate Permits(role: Role, action: Action) {
    match role
    case Anonymous => action.ArtworkViewPublic?
    case Buyer => BuyerMay(action)
    case Operator => OperatorMay(action)
    case Auditor => AuditorMay(action)
  }

  predicate BuyerMay(action: Action) {
    match action
    case ArtworkViewPublic | ArtworkCreateOwn | ArtworkManageOwn | ListingManageOwn | OrderCreate | OrderView |
      CheckoutCreate | ClaimInspect | ClaimAccept | ClaimReissue | CollectionView | LegalConsent |
      ProfileManageOwn | CreatorEarningsViewOwn | RefundInquiryAnswerOwn => true
    case _ => false
  }

  predicate OperatorMay(action: Action) {
    match action
    case ArtworkViewPublic | ArtworkViewUnpublished | ArtworkManage | ListingManage | ArtworkCreateOwn |
      ArtworkManageOwn | ListingManageOwn | OrderView | OrderViewAny | OrderLookupBuyer | OrderNote |
      OrderRefund | RefundRequestView | RefundRequestInvestigate | RefundRequestApprove |
      RefundRequestRetryIntegration | RefundInquiryAnswerOwn | CustomerView | CustomerNote | CustomerViewEmail |
      CustomerEmailChange | CollectionView | MintJobRetry | AuditLogView | StaffView | StaffInvite |
      StaffManage | IntegrationView | IntegrationManage | IntegrationManageSecret | WalletDeliveryRetry |
      OperationsReviewView | OperationsReviewResolve | NotificationView | NotificationEdit |
      NotificationPublish | NotificationResend | OperationsView | OperationsRetry | OperationsAlertManage |
      ProductionView | ProductionAttest | ProductionMailCheck | LegalView | LegalEdit | LegalPublish |
      LegalConsent | PaymentCredentialView | PaymentCredentialManage | SettlementView | SettlementManage |
      PayoutView | PayoutManage | PayoutMarkPaid | PayoutAccountViewFull | SalesReportView | CreatorView |
      ProfileManageOwn | CreatorEarningsViewOwn => true
    case _ => false
  }

  predicate AuditorMay(action: Action) {
    match action
    case ArtworkViewPublic | ArtworkViewUnpublished | OrderView | OrderViewAny | CollectionView | AuditLogView |
      IntegrationView | OperationsReviewView | NotificationView | OperationsView | ProductionView | LegalView |
      LegalConsent | PaymentCredentialView | RefundRequestView | SettlementView | SalesReportView |
      CreatorView | PayoutView => true
    case _ => false
  }

  /** What only somebody with the owner's mark may do. */
  predicate OwnerOnly(action: Action) {
    match action
    case StaffView | StaffInvite | StaffManage | IntegrationManage | IntegrationManageSecret | LegalPublish |
      NotificationPublish | PaymentCredentialManage | OperationsAlertManage | SettlementManage |
      PayoutMarkPaid | RefundRequestApprove | ProductionAttest => true
    case _ => false
  }

  /** `Some` for an action on something owned; inside, the action that makes ownership unnecessary. */
  function OwnershipRule(action: Action): Option<Option<Action>> {
    match action
    case OrderView => Some(Some(OrderViewAny))
    case ArtworkManageOwn => Some(Some(ArtworkManage))
    case ListingManageOwn => Some(Some(ListingManage))
    case CheckoutCreate => Some(None)
    case ClaimAccept => Some(None)
    case ClaimReissue => Some(None)
    case CollectionView => Some(None)
    case _ => None
  }

  predicate HasBypass(actor: Actor, action: Action) {
    OwnershipRule(action).Some? && OwnershipRule(action).value.Some?
    && Permits(actor.role, OwnershipRule(action).value.value)
  }

  /** Known, active, permitted by role, with the owner's mark where one is needed, and owning what is acted on. */
  function Can(actor: Actor, action: Action, owner: Option<string>): Decision {
    if !actor.role.Anonymous? && actor.accountId.None? then Deny(Unauthenticated)
    else if !actor.role.Anonymous? && !actor.isActive then Deny(InactiveAccount)
    else if !Permits(actor.role, action) then Deny(RoleNotPermitted)
    else if OwnerOnly(action) && !actor.isOwner then Deny(NotSiteOwner)
    else if OwnershipRule(action).None? || HasBypass(actor, action) then Allow
    else if actor.accountId.None? then Deny(Unauthenticated)
    else if owner.None? || owner != actor.accountId then Deny(NotOwner)
    else Allow
  }

  /** The same without the last step, for guards that run before anything is loaded. */
  function CanAtRoleLevel(actor: Actor, action: Action): Decision {
    if !actor.role.Anonymous? && actor.accountId.None? then Deny(Unauthenticated)
    else if !actor.role.Anonymous? && !actor.isActive then Deny(InactiveAccount)
    else if !Permits(actor.role, action) then Deny(RoleNotPermitted)
    else if OwnerOnly(action) && !actor.isOwner then Deny(NotSiteOwner)
    else Allow
  }

  /**
   The full decision is the guard's and, for an owned thing without a bypass, ownership; so a
   guard never turns away whom the full decision would let in, and asked with nothing to own the
   full decision lets nobody through who needs ownership.
   */
  lemma FullDecisionIsGuardAndOwnership(actor: Actor, action: Action, owner: Option<string>)
    ensures Can(actor, action, owner).Allow?
            <==> CanAtRoleLevel(actor, action).Allow?
                 && (OwnershipRule(action).None? || HasBypass(actor, action)
                     || (actor.accountId.Some? && owner == actor.accountId))
    ensures CanAtRoleLevel(actor, action).Deny? ==> Can(actor, action, owner) == CanAtRoleLevel(actor, action)
    ensures OwnershipRule(action).Some? && !HasBypass(actor, action) ==> Can(actor, action, None).Deny?
  {
  }

  /**
   Only operators are excused from owning an artwork or listing, and only for reading orders are
   auditors; nobody is excused when claiming, reissuing or paying.
   */
  lemma WhoIsExcusedFromOwning(actor: Actor)
    ensures HasBypass(actor, ArtworkManageOwn) <==> actor.role.Operator?
    ensures HasBypass(actor, ListingManageOwn) <==> actor.role.Operator?
    ensures HasBypass(actor, OrderView) <==> actor.role.Operator? || actor.role.Auditor?
    ensures forall a :: a in {CheckoutCreate, ClaimAccept, ClaimReissue, CollectionView} ==> !HasBypass(actor, a)
  {
  }

  /** What is reserved to the site's owner is out of reach of everyone without the mark, whatever their role. */
  lemma OwnersMarkIsNeeded(actor: Actor, action: Action, owner: Option<string>)
    ensures OwnerOnly(action) && Can(actor, action, owner).Allow? ==> actor.isOwner && actor.role.Operator?
  {
  }

  // --- the tables, read the other way ---------------------------------------------------

  /** Who may do it, action by action; what is for operators alone is everything that is not named. */
  function RolesFor(action: Action): set<Role> {
    match action
    case ArtworkViewPublic => {Anonymous, Buyer, Operator, Auditor}
    case OrderView | CollectionView | LegalConsent => {Buyer, Operator, Auditor}
    case ArtworkCreateOwn | ArtworkManageOwn | ListingManageOwn | RefundInquiryAnswerOwn | ProfileManageOwn |
      CreatorEarningsViewOwn => {Buyer, Operator}
    case OrderCreate | CheckoutCreate | ClaimInspect | ClaimAccept | ClaimReissue => {Buyer}
    case ArtworkViewUnpublished | OrderViewAny | RefundRequestView | AuditLogView | IntegrationView |
      OperationsReviewView | NotificationView | OperationsView | ProductionView | LegalView |
      PaymentCredentialView | SettlementView | PayoutView | SalesReportView | CreatorView => {Operator, Auditor}
    case _ => {Operator}
  }

  lemma RolesAreThose(role: Role, action: Action)
    ensures Permits(role, action) <==> role in RolesFor(action)
  {
    match role
    case Anonymous =>
    case Buyer => BuyersAreThose(action);
    case Operator => OperatorsAreThose(action);
    case Auditor => AuditorsAreThose(action);
  }

  lemma BuyersAreThose(action: Action)
    ensures BuyerMay(action) <==> Buyer in RolesFor(action)
  {
  }

  lemma OperatorsAreThose(action: Action)
    ensures OperatorMay(action) <==> Operator in RolesFor(action)
  {
  }

  lemma AuditorsAreThose(action: Action)
    ensures AuditorMay(action) <==> Auditor in RolesFor(action)
  {
  }

  /** What takes the owner's mark as well. */
  function MarkedActions(): set<Action> {
    {StaffView, StaffInvite, StaffManage, IntegrationManage, IntegrationManageSecret, PaymentCredentialManage,
     LegalPublish, NotificationPublish, OperationsAlertManage, SettlementManage, PayoutMarkPaid,
     RefundRequestApprove, ProductionAttest}
  }

  /** What takes owning the thing, and which roles are excused from it. */
  function OwnedActions(): map<Action, set<Role>> {
    map[OrderView := {Operator, Auditor}, ArtworkManageOwn := {Operator}, ListingManageOwn := {Operator},
        CheckoutCreate := {}, ClaimAccept := {}, ClaimReissue := {}, CollectionView := {}]
  }

  lemma MarkedAreThose(action: Action)
    ensures OwnerOnly(action) <==> action in MarkedActions()
  {
  }

  lemma OwnedAreThose(actor: Actor, action: Action)
    ensures OwnershipRule(action).Some? <==> action in OwnedActions()
    ensures action in OwnedActions() ==> (HasBypass(actor, action) <==> actor.role in OwnedActions()[action])
  {
    if OwnershipRule(action).Some? && OwnershipRule(action).value.Some? {
      RolesAreThose(actor.role, OwnershipRule(action).value.value);
    }
  }

  /** Who is let in, and what everybody else is told: the first of these that applies. */
  lemma DecisionSaysExactly(actor: Actor, action: Action, owner: Option<string>)
    ensures Can(actor, action, owner) ==
            if actor.role != Anonymous && actor.accountId == None then Deny(Unauthenticated)
            else if actor.role != Anonymous && !actor.isActive then Deny(InactiveAccount)
            else if actor.role !in RolesFor(action) then Deny(RoleNotPermitted)
            else if action in MarkedActions() && !actor.isOwner then Deny(NotSiteOwner)
            else if action !in OwnedActions() || actor.role in OwnedActions()[action] then Allow
            else if owner == actor.accountId then Allow
            else Deny(NotOwner)
  {
    RolesAreThose(actor.role, action);
    MarkedAreThose(action);
    OwnedAreThose(actor, action);
    assert action in OwnedActions() ==> Anonymous !in RolesFor(action);
  }
}
