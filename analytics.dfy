/**
 * Business-setup analytics: the event names, the module's replaceable
 * tracker and the payload each helper sends. Trackers are identified by
 * name; what a tracker does with an event (the console tracker logs it in
 * development) is outside the model, which records every delivered event
 * together with the tracker that received it. The clock is a parameter.
 */
module Analytics {
  import opened Wrappers
  import opened Json
  import opened Text

  /** The `BusinessSetupEvents` constants. */
  datatype EventName =
    | ModalOpened | ModalClosed | TabSwitched | CountrySelected
    | DepartmentSearched | DepartmentSelected
    | LicenseLookupStarted | LicenseLookupSucceeded | LicenseLookupFailed
    | ValidationFailed | FormSubmitted | SetupCompleted | SetupFailed | FlowAbandoned

  /** The wire name of each event. */
  function Wire(e: EventName): string {
    match e
    case ModalOpened => "business_setup_modal_opened"
    case ModalClosed => "business_setup_modal_closed"
    case TabSwitched => "business_setup_tab_switched"
    case CountrySelected => "business_setup_country_selected"
    case DepartmentSearched => "business_setup_department_searched"
    case DepartmentSelected => "business_setup_department_selected"
    case LicenseLookupStarted => "business_setup_license_lookup_started"
    case LicenseLookupSucceeded => "business_setup_license_lookup_succeeded"
    case LicenseLookupFailed => "business_setup_license_lookup_failed"
    case ValidationFailed => "business_setup_validation_failed"
    case FormSubmitted => "business_setup_form_submitted"
    case SetupCompleted => "business_setup_completed"
    case SetupFailed => "business_setup_failed"
    case FlowAbandoned => "business_setup_flow_abandoned"
  }

  const SourceKey := "source"
  const BusinessSetup := "business_setup"

  /** An `AnalyticsEvent` as `trackBusinessSetupEvent` builds it. */
  datatype Event = Event(name: string, properties: map<string, Json>, timestamp: string)

  /** A tracker, by identity: the default console tracker or one installed by the application. */
  datatype TrackerId = ConsoleTracker | CustomTracker(key: string)

  /**
   * The event sent for `trackBusinessSetupEvent(name, properties)` at time
   * `now`: the caller's properties spread first, then `source` overwritten.
   */
  function Shaped(name: EventName, properties: Option<map<string, Json>>, now: string): (e: Event)
    ensures e.name == Wire(name) && e.timestamp == now
    ensures SourceKey in e.properties && e.properties[SourceKey] == JStr(BusinessSetup)
    ensures forall k :: k in e.properties <==> k == SourceKey || (properties.Some? && k in properties.value)
    ensures forall k :: k in e.properties && k != SourceKey ==> e.properties[k] == properties.value[k]
  {
    var spread := if properties.Some? then properties.value else map[];
    Event(Wire(name), spread[SourceKey := JStr(BusinessSetup)], now)
  }

  /** A caller's `source` never survives: the event says where it came from. */
  lemma CallerSourceOverwritten(name: EventName, properties: map<string, Json>, now: string)
    requires SourceKey in properties
    ensures Shaped(name, Some(properties), now).properties[SourceKey] == JStr(BusinessSetup)
    ensures Shaped(name, Some(properties), now).properties.Keys == properties.Keys
  {
  }

  /** Missing properties and an empty object send the same event. */
  lemma NoPropertiesIsEmpty(name: EventName, now: string)
    ensures Shaped(name, None, now) == Shaped(name, Some(map[]), now)
    ensures Shaped(name, None, now).properties == map[SourceKey := JStr(BusinessSetup)]
  {
  }

  predicate FromBusinessSetup(e: Event) {
    SourceKey in e.properties && e.properties[SourceKey] == JStr(BusinessSetup)
  }

  datatype ModalSource = Dashboard | FromUrl
  datatype Tab = Existing | New

  function ModalSourceName(s: ModalSource): string {
    match s
    case Dashboard => "dashboard"
    case FromUrl => "url"
  }

  function TabName(t: Tab): string {
    match t
    case Existing => "existing"
    case New => "new"
  }

  /** `{ source }` with `source = 'dashboard'` by default. */
  function ModalOpenedProps(source: Option<ModalSource>): (p: map<string, Json>)
    ensures p.Keys == {SourceKey}
    ensures p[SourceKey] == JStr(ModalSourceName(source.GetOr(Dashboard)))
  {
    map[SourceKey := JStr(ModalSourceName(source.GetOr(Dashboard)))]
  }

  /** modalOpened's own `source` is lost: opening from a URL and from the dashboard send the same event. */
  lemma ModalSourceLost(a: Option<ModalSource>, b: Option<ModalSource>, now: string)
    ensures Shaped(ModalOpened, Some(ModalOpenedProps(a)), now) == Shaped(ModalOpened, Some(ModalOpenedProps(b)), now)
    ensures Shaped(ModalOpened, Some(ModalOpenedProps(a)), now).properties == map[SourceKey := JStr(BusinessSetup)]
  {
    var pa := Shaped(ModalOpened, Some(ModalOpenedProps(a)), now).properties;
    var pb := Shaped(ModalOpened, Some(ModalOpenedProps(b)), now).properties;
    assert pa == map[SourceKey := JStr(BusinessSetup)];
    assert pb == map[SourceKey := JStr(BusinessSetup)];
  }

  /** `{ query_length, results_count }`: the query's UTF-16 length, never its text. */
  function DepartmentSearchedProps(query: string, resultsCount: int): (p: map<string, Json>)
    ensures p.Keys == {"query_length", "results_count"}
    ensures p["query_length"] == JNum(Utf16Length(query)) && p["results_count"] == JNum(resultsCount)
  {
    map["query_length" := JNum(Utf16Length(query)), "results_count" := JNum(resultsCount)]
  }

  /** Two queries of the same length send the same event, and no property is text but the source. */
  lemma DepartmentSearchedHidesQuery(q1: string, q2: string, resultsCount: int, now: string)
    requires Utf16Length(q1) == Utf16Length(q2)
    ensures Shaped(DepartmentSearched, Some(DepartmentSearchedProps(q1, resultsCount)), now) ==
      Shaped(DepartmentSearched, Some(DepartmentSearchedProps(q2, resultsCount)), now)
    ensures var e := Shaped(DepartmentSearched, Some(DepartmentSearchedProps(q1, resultsCount)), now);
      forall k :: k in e.properties && k != SourceKey ==> e.properties[k].JNum?
  {
    assert DepartmentSearchedProps(q1, resultsCount) == DepartmentSearchedProps(q2, resultsCount);
  }

  function StringArray(xs: seq<string>): (j: Json)
    ensures j.JArr? && |j.items| == |xs|
    ensures forall i :: 0 <= i < |xs| ==> j.items[i] == JStr(xs[i])
  {
    JArr(seq(|xs|, i requires 0 <= i < |xs| => JStr(xs[i])))
  }

  /** `{ field_names, field_count: fieldNames.length }`. */
  function ValidationFailedProps(fieldNames: seq<string>): (p: map<string, Json>)
    ensures p.Keys == {"field_names", "field_count"}
    ensures p["field_names"] == StringArray(fieldNames) && p["field_count"] == JNum(|fieldNames|)
  {
    map["field_names" := StringArray(fieldNames), "field_count" := JNum(|fieldNames|)]
  }

  /** The count sent always matches the list of field names sent. */
  lemma ValidationCountMatches(fieldNames: seq<string>, now: string)
    ensures var e := Shaped(ValidationFailed, Some(ValidationFailedProps(fieldNames)), now);
      && e.properties["field_names"].JArr?
      && e.properties["field_count"] == JNum(|e.properties["field_names"].items|)
  {
    var p := ValidationFailedProps(fieldNames);
    var e := Shaped(ValidationFailed, Some(p), now);
    assert "field_names" != SourceKey && "field_count" != SourceKey;
    assert e.properties["field_names"] == StringArray(fieldNames);
  }

  /** The module state: the current tracker, and every event delivered so far with its receiver. */
  class BusinessSetupAnalytics {
    var tracker: TrackerId
    var delivered: seq<(TrackerId, Event)>

    /** Every event delivered so far carries the business-setup source. */
    predicate AllFromBusinessSetup()
      reads this
    {
      forall i :: 0 <= i < |delivered| ==> FromBusinessSetup(delivered[i].1)
    }

    /** `let tracker = consoleTracker`. */
    constructor()
      ensures tracker == ConsoleTracker && delivered == []
      ensures AllFromBusinessSetup()
    {
      tracker := ConsoleTracker;
      delivered := [];
    }

    /** `setAnalyticsTracker`: later events go to the new tracker; nothing already sent moves. */
    method SetTracker(custom: TrackerId)
      modifies this
      ensures tracker == custom && delivered == old(delivered)
      ensures old(AllFromBusinessSetup()) ==> AllFromBusinessSetup()
    {
      tracker := custom;
    }

    /** `trackBusinessSetupEvent`: one event, shaped, delivered to the current tracker. */
    method Track(name: EventName, properties: Option<map<string, Json>>, now: string)
      modifies this
      ensures tracker == old(tracker)
      ensures delivered == old(delivered) + [(old(tracker), Shaped(name, properties, now))]
      ensures old(AllFromBusinessSetup()) ==> AllFromBusinessSetup()
    {
      var e := Shaped(name, properties, now);
      delivered := delivered + [(tracker, e)];
    }

    method ModalOpenedEvent(source: Option<ModalSource>, now: string)
      modifies this
      ensures tracker == old(tracker)
      ensures delivered == old(delivered) + [(old(tracker), Shaped(ModalOpened, Some(ModalOpenedProps(source)), now))]
      ensures old(AllFromBusinessSetup()) ==> AllFromBusinessSetup()
    {
      Track(ModalOpened, Some(ModalOpenedProps(source)), now);
    }

    method TabSwitchedEvent(tab: Tab, now: string)
      modifies this
      ensures tracker == old(tracker)
      ensures delivered == old(delivered) + [(old(tracker), Shaped(TabSwitched, Some(map["tab" := JStr(TabName(tab))]), now))]
      ensures old(AllFromBusinessSetup()) ==> AllFromBusinessSetup()
    {
      Track(TabSwitched, Some(map["tab" := JStr(TabName(tab))]), now);
    }

    method CountrySelectedEvent(country: string, now: string)
      modifies this
      ensures tracker == old(tracker)
      ensures delivered == old(delivered) + [(old(tracker), Shaped(CountrySelected, Some(map["country" := JStr(country)]), now))]
      ensures old(AllFromBusinessSetup()) ==> AllFromBusinessSetup()
    {
      Track(CountrySelected, Some(map["country" := JStr(country)]), now);
    }

    method DepartmentSearchedEvent(query: string, resultsCount: int, now: string)
      modifies this
      ensures tracker == old(tracker)
      ensures delivered == old(delivered) +
        [(old(tracker), Shaped(DepartmentSearched, Some(DepartmentSearchedProps(query, resultsCount)), now))]
      ensures old(AllFromBusinessSetup()) ==> AllFromBusinessSetup()
    {
      Track(DepartmentSearched, Some(DepartmentSearchedProps(query, resultsCount)), now);
    }

    method LicenseLookupStartedEvent(country: string, now: string)
      modifies this
      ensures tracker == old(tracker)
      ensures delivered == old(delivered) + [(old(tracker), Shaped(LicenseLookupStarted, Some(map["country" := JStr(country)]), now))]
      ensures old(AllFromBusinessSetup()) ==> AllFromBusinessSetup()
    {
      Track(LicenseLookupStarted, Some(map["country" := JStr(country)]), now);
    }

    method LicenseLookupSucceededEvent(durationMs: int, autoFilled: bool, now: string)
      modifies this
      ensures tracker == old(tracker)
      ensures delivered == old(delivered) + [(old(tracker), Shaped(LicenseLookupSucceeded,
        Some(map["duration_ms" := JNum(durationMs), "auto_filled" := JBool(autoFilled)]), now))]
      ensures old(AllFromBusinessSetup()) ==> AllFromBusinessSetup()
    {
      Track(LicenseLookupSucceeded, Some(map["duration_ms" := JNum(durationMs), "auto_filled" := JBool(autoFilled)]), now);
    }

    method LicenseLookupFailedEvent(errorCode: string, now: string)
      modifies this
      ensures tracker == old(tracker)
      ensures delivered == old(delivered) + [(old(tracker), Shaped(LicenseLookupFailed, Some(map["error_code" := JStr(errorCode)]), now))]
      ensures old(AllFromBusinessSetup()) ==> AllFromBusinessSetup()
    {
      Track(LicenseLookupFailed, Some(map["error_code" := JStr(errorCode)]), now);
    }

    method ValidationFailedEvent(fieldNames: seq<string>, now: string)
      modifies this
      ensures tracker == old(tracker)
      ensures delivered == old(delivered) + [(old(tracker), Shaped(ValidationFailed, Some(ValidationFailedProps(fieldNames)), now))]
      ensures old(AllFromBusinessSetup()) ==> AllFromBusinessSetup()
    {
      Track(ValidationFailed, Some(ValidationFailedProps(fieldNames)), now);
    }

    method SetupCompletedEvent(businessType: string, country: string, durationSeconds: int, now: string)
      modifies this
      ensures tracker == old(tracker)
      ensures delivered == old(delivered) + [(old(tracker), Shaped(SetupCompleted, Some(map[
        "business_type" := JStr(businessType), "country" := JStr(country), "duration_seconds" := JNum(durationSeconds)]), now))]
      ensures old(AllFromBusinessSetup()) ==> AllFromBusinessSetup()
    {
      Track(SetupCompleted, Some(map[
        "business_type" := JStr(businessType), "country" := JStr(country), "duration_seconds" := JNum(durationSeconds)]), now);
    }

    method SetupFailedEvent(errorCode: string, errorMessage: string, now: string)
      modifies this
      ensures tracker == old(tracker)
      ensures delivered == old(delivered) + [(old(tracker), Shaped(SetupFailed,
        Some(map["error_code" := JStr(errorCode), "error_message" := JStr(errorMessage)]), now))]
      ensures old(AllFromBusinessSetup()) ==> AllFromBusinessSetup()
    {
      Track(SetupFailed, Some(map["error_code" := JStr(errorCode), "error_message" := JStr(errorMessage)]), now);
    }

    method FlowAbandonedEvent(lastInteraction: string, timeSpentSeconds: int, now: string)
      modifies this
      ensures tracker == old(tracker)
      ensures delivered == old(delivered) + [(old(tracker), Shaped(FlowAbandoned,
        Some(map["last_interaction" := JStr(lastInteraction), "time_spent_seconds" := JNum(timeSpentSeconds)]), now))]
      ensures old(AllFromBusinessSetup()) ==> AllFromBusinessSetup()
    {
      Track(FlowAbandoned, Some(map["last_interaction" := JStr(lastInteraction), "time_spent_seconds" := JNum(timeSpentSeconds)]), now);
    }
  }

  /** After `setAnalyticsTracker(t)`, the next event reaches `t` and the earlier ones stay where they went. */
  method SwitchThenTrack(a: BusinessSetupAnalytics, t: TrackerId, name: EventName, properties: Option<map<string, Json>>, now: string)
    modifies a
    ensures a.tracker == t
    ensures a.delivered == old(a.delivered) + [(t, Shaped(name, properties, now))]
  {
    a.SetTracker(t);
    a.Track(name, properties, now);
  }
}
