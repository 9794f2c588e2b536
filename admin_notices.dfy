/** The GoDaddy Payments admin notices: an ID-keyed registry of notices, the predicates that
    decide on which settings pages the Google Pay, recommendation and connection notices are
    registered, and the test that decides whether a registered notice is shown to the current
    user. The request's query arguments, the configuration flags, the onboarding and connection
    state and the shipping zones are inputs; notice messages are abstracted to whether they are
    empty. */
module PaymentNotices {
  import opened Php

  /** A notice's data: its ID, its `dismissible` entry (None when absent), its type and whether
      its message is non-empty. */
  datatype NoticeData = NoticeData(id: Option<string>, dismissible: Option<bool>, noticeType: string, hasMessage: bool)

  const RecommendationId: string := "mwc-godaddy-payments-recommendation"
  const GooglePayEnabledId: string := "mwc-payments-godaddy-payments-google-pay-enabled"
  const GooglePayNoPagesId: string := "mwc-payments-godaddy-payments-google-pay-no-enabled-pages"
  const ConnectionSwitchedId: string := "mwc-payments-godaddy-payments-connection-switched"
  const ConnectionId: string := "mwc-payments-godaddy-payments-connection"

  /** The shipping method IDs the pickup and delivery tests look for. */
  const WcLocalPickup: string := "local_pickup"
  const LocalDelivery: string := "mwc_local_delivery"

  /** The query arguments of the admin request (None when absent). */
  datatype QueryArgs = QueryArgs(page: Option<string>, tab: Option<string>, section: Option<string>)

  /** Everything the registration reads besides the registry: Worldpay's load check, the Google
      Pay configuration and gateway state, the BOPIT flag, the onboarding status, the request's
      query arguments, whether WooCommerce is active and its shipping zones (each the IDs of its
      shipping methods), the GDP-by-default flag, the connection state, whether a connected
      business could be fetched and whether accounts were switched. */
  datatype NoticeEnv = NoticeEnv(
    worldpayShouldLoad: bool,
    googlePayEnabled: bool,
    googlePayActive: bool,
    googlePayHasEnabledPages: bool,
    bopitEnabled: bool,
    onboardingStatus: string,
    query: QueryArgs,
    wooCommerceActive: bool,
    zones: seq<seq<string>>,
    gdpByDefault: bool,
    poyntConnected: bool,
    wasConnected: bool,
    hasBusiness: bool,
    switchedAccounts: bool)

  /** `registerNotice`: data without a truthy ID is ignored; otherwise it is stored under its ID. */
  function Register(notices: map<string, NoticeData>, data: NoticeData): map<string, NoticeData> {
    if !TruthyOpt(data.id) then notices else notices[data.id.value := data]
  }

  /** `shouldRenderNotice`: a notice is shown unless it is dismissible (the default) and the user
      dismissed it; `dismissed` is the current user's dismissal test by notice ID. */
  predicate ShouldRenderNotice(data: NoticeData, dismissed: string -> bool) {
    var dismissible := if data.dismissible.Some? then data.dismissible.value else true;
    !dismissible || !dismissed(if data.id.Some? then data.id.value else "")
  }

  /** The IDs of the registered notices that `renderNotices` outputs: none without a current
      user, otherwise those that should render and have a message. */
  function RenderedNotices(notices: map<string, NoticeData>, hasUser: bool, dismissed: string -> bool): (r: set<string>)
    ensures r <= notices.Keys
    ensures !hasUser ==> r == {}
  {
    if !hasUser then {}
    else set id | id in notices && ShouldRenderNotice(notices[id], dismissed) && notices[id].hasMessage
  }

  /** The shipping zones the pickup and delivery tests see. */
  function ShippingZones(env: NoticeEnv): seq<seq<string>> {
    if env.wooCommerceActive then env.zones else []
  }

  /** Whether the first shipping zone has a method with the given ID; later zones are never
      looked at. */
  predicate FirstZoneHasMethod(zones: seq<seq<string>>, methodId: string) {
    zones != [] && methodId in zones[0]
  }

  /** `isLocalPickupEnabled` and `isLocalDeliveryEnabled`. */
  predicate IsLocalPickupEnabled(env: NoticeEnv) {
    FirstZoneHasMethod(ShippingZones(env), WcLocalPickup)
  }

  predicate IsLocalDeliveryEnabled(env: NoticeEnv) {
    FirstZoneHasMethod(ShippingZones(env), LocalDelivery)
  }

  /** `shouldRegisterGdpRecommendationNotices`. */
  predicate ShouldRegisterGdpRecommendationNotices(env: NoticeEnv) {
    if !env.bopitEnabled || "" != env.onboardingStatus || env.query.page != Some("wc-settings") then false
    else
      env.query.section in {Some("local_pickup_plus"), Some("cod")}
      || (env.query.tab == Some("shipping") && (IsLocalPickupEnabled(env) || IsLocalDeliveryEnabled(env)))
  }

  /** `shouldShowGDPConnectionNotices`. */
  predicate ShouldShowGDPConnectionNotices(env: NoticeEnv) {
    if env.query.page != Some("wc-settings") then false
    else if TruthyOpt(env.query.tab) && env.query.tab !in {Some("general"), Some("checkout")} then false
    else if TruthyOpt(env.query.section) && env.query.section != Some("poynt") then false
    else env.poyntConnected && env.wasConnected
  }

  /** `registerGooglePayNotices`. */
  function GooglePayNotices(notices: map<string, NoticeData>, env: NoticeEnv): map<string, NoticeData> {
    if !env.googlePayEnabled || !env.googlePayActive then notices
    else
      var withEnabled := Register(notices, NoticeData(Some(GooglePayEnabledId), Some(true), "success", true));
      var onSettingsPage := env.query.page == Some("wc-settings") && env.query.section == Some("godaddy-payments-google-pay");
      if !env.googlePayHasEnabledPages && onSettingsPage
      then Register(withEnabled, NoticeData(Some(GooglePayNoPagesId), Some(false), "error", true))
      else withEnabled
  }

  /** `registerGdpRecommendationNotices`. */
  function RecommendationNotices(notices: map<string, NoticeData>, env: NoticeEnv): map<string, NoticeData> {
    if !ShouldRegisterGdpRecommendationNotices(env) then notices
    else Register(notices, NoticeData(Some(RecommendationId), Some(true), "info", true))
  }

  /** `maybeRegisterConnectedAccountNotice`. */
  function ConnectedAccountNotices(notices: map<string, NoticeData>, env: NoticeEnv): map<string, NoticeData> {
    if !env.gdpByDefault || !ShouldShowGDPConnectionNotices(env) || !env.hasBusiness then notices
    else
      var id := if env.switchedAccounts then ConnectionSwitchedId else ConnectionId;
      Register(notices, NoticeData(Some(id), Some(true), "success", true))
  }

  /** `registerNotices`. */
  function RegisterNoticesSpec(notices: map<string, NoticeData>, env: NoticeEnv): map<string, NoticeData> {
    if env.worldpayShouldLoad then notices
    else ConnectedAccountNotices(RecommendationNotices(GooglePayNotices(notices, env), env), env)
  }

  /** The notices handler and its registry. */
  class Notices {
    var notices: map<string, NoticeData>

    constructor ()
      ensures notices == map[]
    {
      notices := map[];
    }

    /** `registerNotice`. */
    method RegisterNotice(data: NoticeData)
      modifies this
      ensures notices == Register(old(notices), data)
    {
      if !TruthyOpt(data.id) {
        return;
      }
      notices := notices[data.id.value := data];
    }

    /** `isLocalPickupEnabled` / `isLocalDeliveryEnabled`. The source's loop over the zones
        returns inside its first iteration, so it is written as a test of the first zone, which
        searches that zone's methods. */
    method ZoneMethodEnabled(env: NoticeEnv, methodId: string) returns (enabled: bool)
      ensures enabled == FirstZoneHasMethod(ShippingZones(env), methodId)
    {
      var zones := if env.wooCommerceActive then env.zones else [];
      if zones == [] {
        return false;
      }
      var methods := zones[0];
      enabled := false;
      var j := 0;
      while j < |methods|
        invariant 0 <= j <= |methods|
        invariant enabled <==> methodId in methods[..j]
      {
        if methods[j] == methodId {
          enabled := true;
        }
        assert methods[..j + 1] == methods[..j] + [methods[j]];
        j := j + 1;
      }
      assert methods[..j] == methods;
    }

    /** `registerNotices`. */
    method RegisterNotices(env: NoticeEnv)
      modifies this
      ensures notices == RegisterNoticesSpec(old(notices), env)
    {
      if env.worldpayShouldLoad {
        return;
      }
      RegisterGooglePayNotices(env);
      RegisterGdpRecommendationNotices(env);
      MaybeRegisterConnectedAccountNotice(env);
    }

    /** `registerGooglePayNotices`. */
    method RegisterGooglePayNotices(env: NoticeEnv)
      modifies this
      ensures notices == GooglePayNotices(old(notices), env)
    {
      if !env.googlePayEnabled || !env.googlePayActive {
        return;
      }
      RegisterNotice(NoticeData(Some(GooglePayEnabledId), Some(true), "success", true));
      var isGooglePaySettingsPage := env.query.page == Some("wc-settings") && env.query.section == Some("godaddy-payments-google-pay");
      if !env.googlePayHasEnabledPages && isGooglePaySettingsPage {
        RegisterNotice(NoticeData(Some(GooglePayNoPagesId), Some(false), "error", true));
      }
    }

    /** `registerGdpRecommendationNotices`, with the pickup and delivery tests run by the zone
        loop. */
    method RegisterGdpRecommendationNotices(env: NoticeEnv)
      modifies this
      ensures notices == RecommendationNotices(old(notices), env)
    {
      if !env.bopitEnabled || "" != env.onboardingStatus || env.query.page != Some("wc-settings") {
        return;
      }
      var should := env.query.section in {Some("local_pickup_plus"), Some("cod")};
      if !should && env.query.tab == Some("shipping") {
        var pickup := ZoneMethodEnabled(env, WcLocalPickup);
        var delivery := ZoneMethodEnabled(env, LocalDelivery);
        should := pickup || delivery;
      }
      if should {
        RegisterNotice(NoticeData(Some(RecommendationId), Some(true), "info", true));
      }
    }

    /** `maybeRegisterConnectedAccountNotice`. */
    method MaybeRegisterConnectedAccountNotice(env: NoticeEnv)
      modifies this
      ensures notices == ConnectedAccountNotices(old(notices), env)
    {
      if !env.gdpByDefault || !ShouldShowGDPConnectionNotices(env) || !env.hasBusiness {
        return;
      }
      var id := if env.switchedAccounts then ConnectionSwitchedId else ConnectionId;
      RegisterNotice(NoticeData(Some(id), Some(true), "success", true));
    }
  }

  // ---------------------------------------------------------------------------
  // Properties of the registry

  /** Data with an empty, "0" or missing ID is ignored. */
  lemma EmptyIdIgnored(notices: map<string, NoticeData>, data: NoticeData)
    requires data.id.None? || data.id == Some("") || data.id == Some("0")
    ensures Register(notices, data) == notices
  {
  }

  /** Registering under an ID stores the data there, adds only that key, and leaves every other
      entry alone. */
  lemma RegisterReplacesOnlyItsEntry(notices: map<string, NoticeData>, data: NoticeData)
    requires TruthyOpt(data.id)
    ensures var after := Register(notices, data);
      && data.id.value in after && after[data.id.value] == data
      && after.Keys == notices.Keys + {data.id.value}
      && (forall k :: k in notices && k != data.id.value ==> after[k] == notices[k])
  {
  }

  /** A notice is shown exactly when it is explicitly not dismissible or the user did not
      dismiss it; a notice without a `dismissible` entry counts as dismissible. */
  lemma RenderExactly(data: NoticeData, dismissed: string -> bool)
    ensures ShouldRenderNotice(data, dismissed) <==>
      data.dismissible == Some(false) || !dismissed(if data.id.Some? then data.id.value else "")
    ensures data.dismissible.None? && data.id.Some? && dismissed(data.id.value) ==> !ShouldRenderNotice(data, dismissed)
  {
  }

  /** For a logged-in user, a registered, non-dismissible notice with a message is always
      output, and a dismissed, dismissible one never is. */
  lemma RenderedNoticesExactly(notices: map<string, NoticeData>, dismissed: string -> bool, id: string)
    requires id in notices
    ensures notices[id].dismissible == Some(false) && notices[id].hasMessage ==> id in RenderedNotices(notices, true, dismissed)
    ensures notices[id].dismissible != Some(false) && notices[id].id.Some? && dismissed(notices[id].id.value) ==>
      id !in RenderedNotices(notices, true, dismissed)
  {
  }

  // ---------------------------------------------------------------------------
  // Properties of the page predicates and the registration

  /** The connection notices show exactly on WooCommerce settings, on the general or payments
      tab (or none), in no section or the GoDaddy Payments one, for a connected account that was
      connected automatically. */
  lemma ConnectionNoticePages(env: NoticeEnv)
    ensures ShouldShowGDPConnectionNotices(env) <==>
      && env.query.page == Some("wc-settings")
      && (!TruthyOpt(env.query.tab) || env.query.tab == Some("general") || env.query.tab == Some("checkout"))
      && (!TruthyOpt(env.query.section) || env.query.section == Some("poynt"))
      && env.poyntConnected && env.wasConnected
  {
  }

  /** The recommendation is registered only with BOPIT on, no onboarding status, on WooCommerce
      settings, and then in the local pickup plus or cash-on-delivery section, or on the
      shipping tab when the first zone offers local pickup or delivery. */
  lemma RecommendationConditions(env: NoticeEnv)
    ensures ShouldRegisterGdpRecommendationNotices(env) <==>
      && env.bopitEnabled && env.onboardingStatus == "" && env.query.page == Some("wc-settings")
      && (|| env.query.section == Some("local_pickup_plus") || env.query.section == Some("cod")
          || (env.query.tab == Some("shipping") && ShippingZones(env) != []
              && (WcLocalPickup in ShippingZones(env)[0] || LocalDelivery in ShippingZones(env)[0])))
  {
  }

  /** Only the first shipping zone counts: a pickup method in a later zone is ignored, and there
      is none without zones or without WooCommerce. */
  lemma OnlyFirstZoneCounts(first: seq<string>, later: seq<seq<string>>, methodId: string)
    ensures FirstZoneHasMethod([first] + later, methodId) <==> methodId in first
    ensures !FirstZoneHasMethod([], methodId)
  {
  }

  /** With Worldpay loading nothing is registered. */
  lemma WorldpayRegistersNothing(notices: map<string, NoticeData>, env: NoticeEnv)
    requires env.worldpayShouldLoad
    ensures RegisterNoticesSpec(notices, env) == notices
  {
  }

  /** The known notice IDs. */
  predicate IsKnownNoticeId(id: string) {
    id in {RecommendationId, GooglePayEnabledId, GooglePayNoPagesId, ConnectionSwitchedId, ConnectionId}
  }

  /** Registration only adds or replaces the five known notices; every other entry is kept as
      it was, and an entry is never removed. */
  lemma RegistrationTouchesOnlyKnownNotices(notices: map<string, NoticeData>, env: NoticeEnv)
    ensures var after := RegisterNoticesSpec(notices, env);
      && notices.Keys <= after.Keys
      && (forall k :: k in after && !IsKnownNoticeId(k) ==> k in notices && after[k] == notices[k])
  {
  }

  /** The recommendation notice is only ever (re-)registered when its conditions hold; the
      connection notice only for a connected account that was connected automatically. */
  lemma NoticesOnlyUnderTheirConditions(notices: map<string, NoticeData>, env: NoticeEnv)
    ensures var after := RegisterNoticesSpec(notices, env);
      && (RecommendationId in after && (RecommendationId !in notices || after[RecommendationId] != notices[RecommendationId]) ==>
            !env.worldpayShouldLoad && ShouldRegisterGdpRecommendationNotices(env))
      && (ConnectionId in after && (ConnectionId !in notices || after[ConnectionId] != notices[ConnectionId]) ==>
            !env.worldpayShouldLoad && env.gdpByDefault && env.poyntConnected && env.wasConnected && !env.switchedAccounts)
  {
  }
}
