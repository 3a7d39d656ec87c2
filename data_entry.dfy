/** frontend/src/pages/DataEntry.js: the two entry forms. Symptoms are
    toggled on and off a list; a submit sends the form through the client
    and either clears it with a success message or keeps it with an error
    message. Form fields are the strings the inputs hold. */
module DataEntry {
  import opened Sequences
  import opened Common
  import opened ApiService

  datatype WaterForm = WaterForm(
    sensorId: string, location: string, pH: string, turbidity: string,
    contaminationLevel: string, temperature: string)

  datatype HealthForm = HealthForm(
    patientId: string, location: string, symptoms: seq<string>, disease: string,
    severity: string, age: string, gender: string, reportedBy: string)

  const EmptyWaterForm := WaterForm("", "", "", "", "", "")
  const EmptyHealthForm := HealthForm("", "", [], "", "", "", "", "")

  const WaterSubmitted := "Water data submitted successfully"
  const WaterSubmitFailed := "Error submitting water data"
  const HealthSubmitted := "Health data submitted successfully"
  const HealthSubmitFailed := "Error submitting health data"

  /** The `symptoms` update of `handleSymptomToggle`: drop every copy of a
      present symptom, append an absent one. */
  function Toggle(symptoms: seq<string>, symptom: string): (r: seq<string>)
    ensures symptom in symptoms ==> symptom !in r
    ensures symptom !in symptoms ==> r == symptoms + [symptom]
    ensures forall t :: t != symptom ==> (t in r <==> t in symptoms)
  {
    if symptom in symptoms then Filter(symptoms, (t: string) => t != symptom)
    else symptoms + [symptom]
  }

  /** `setHealthData(prev => ({ ...prev, symptoms: … }))`: only `symptoms` changes. */
  function ToggleSymptom(form: HealthForm, symptom: string): (f: HealthForm)
    ensures f.symptoms == Toggle(form.symptoms, symptom)
    ensures f.(symptoms := form.symptoms) == form
  {
    form.(symptoms := Toggle(form.symptoms, symptom))
  }

  ghost predicate NoDuplicates(xs: seq<string>) {
    forall x :: x in multiset(xs) ==> multiset(xs)[x] <= 1
  }

  /** Removing a present symptom keeps every other entry, each copy, in
      its order: the k-th entry left is the entry at position `f[k]`,
      the positions increase, and every position holding another
      symptom is among them. */
  lemma RemovalKeepsOrder(symptoms: seq<string>, symptom: string) returns (f: seq<int>)
    requires symptom in symptoms
    ensures var r := Toggle(symptoms, symptom);
            |r| < |symptoms| && |f| == |r|
            && (forall k :: 0 <= k < |f| ==> 0 <= f[k] < |symptoms| && r[k] == symptoms[f[k]])
            && Increasing(f)
            && (forall i :: 0 <= i < |symptoms| && symptoms[i] != symptom ==> i in f)
    ensures forall t :: t != symptom ==> multiset(Toggle(symptoms, symptom))[t] == multiset(symptoms)[t]
  {
    var p := (t: string) => t != symptom;
    FilterShrinks(symptoms, p, symptom);
    f := FilterKeepsOrder(symptoms, p);
    forall t | t != symptom ensures multiset(Toggle(symptoms, symptom))[t] == multiset(symptoms)[t] {
      FilterCounts(symptoms, p, t);
    }
  }

  /** A list without duplicates keeps none after a toggle. */
  lemma ToggleKeepsNoDuplicates(symptoms: seq<string>, symptom: string)
    requires NoDuplicates(symptoms)
    ensures NoDuplicates(Toggle(symptoms, symptom))
  {
    var r := Toggle(symptoms, symptom);
    if symptom in symptoms {
      forall x ensures multiset(r)[x] <= 1 {
        assert multiset(r) <= multiset(symptoms);
      }
    } else {
      forall x ensures multiset(r)[x] <= 1 {
        assert multiset(r) == multiset(symptoms) + multiset{symptom};
      }
    }
  }

  /** Toggling an absent symptom twice gives back the original list. */
  lemma ToggleTwiceRestores(symptoms: seq<string>, symptom: string)
    requires symptom !in symptoms
    ensures Toggle(Toggle(symptoms, symptom), symptom) == symptoms
  {
    var p := (t: string) => t != symptom;
    FilterConcat(symptoms, [symptom], p);
    FilterAll(symptoms, p);
    assert Filter([symptom], p) == [];
  }

  /** A present symptom toggled twice comes back once, at the end. */
  lemma TogglePresentTwice(symptoms: seq<string>, symptom: string)
    requires symptom in symptoms
    ensures Toggle(Toggle(symptoms, symptom), symptom)
            == Filter(symptoms, (t: string) => t != symptom) + [symptom]
  {
  }

  /** The page's state: the two forms and the status message. */
  class Page {
    var waterForm: WaterForm
    var healthForm: HealthForm
    var message: string

    constructor ()
      ensures waterForm == EmptyWaterForm && healthForm == EmptyHealthForm && message == ""
    {
      waterForm := EmptyWaterForm;
      healthForm := EmptyHealthForm;
      message := "";
    }

    method HandleSymptomToggle(symptom: string)
      modifies this`healthForm
      ensures healthForm == ToggleSymptom(old(healthForm), symptom)
    {
      healthForm := healthForm.(symptoms := Toggle(healthForm.symptoms, symptom));
    }

    /** `handleWaterSubmit`: on success all six fields are cleared; on
        failure (offline, or a rejection the cache does not mask) they are
        kept. The health form is never touched. */
    method HandleWaterSubmit(client: Client, transport: Transport, now: int)
      modifies this`waterForm, this`message, client`cache, client`sent
      ensures client.sent == if old(client.online) then old(client.sent) + [Request(Post, "/water-data")] else old(client.sent)
      ensures client.cache == if old(client.online) then Remember(old(client.cache), "/water-data", transport, now) else old(client.cache)
      ensures var o := if old(client.online) then Settle(old(client.cache), "/water-data", transport, now)
                       else Rejected(OfflineSubmitMessage);
              if o.Resolved? then waterForm == EmptyWaterForm && message == WaterSubmitted
              else waterForm == old(waterForm) && message == WaterSubmitFailed
    {
      var o := client.SubmitWaterData(transport, now);
      if o.Resolved? {
        message := WaterSubmitted;
        waterForm := EmptyWaterForm;
      } else {
        message := WaterSubmitFailed;
      }
    }

    /** `handleHealthSubmit`: on success every field is cleared, `symptoms`
        to the empty list; on failure they are kept. */
    method HandleHealthSubmit(client: Client, transport: Transport, now: int)
      modifies this`healthForm, this`message, client`cache, client`sent
      ensures client.sent == if old(client.online) then old(client.sent) + [Request(Post, "/health-data")] else old(client.sent)
      ensures client.cache == if old(client.online) then Remember(old(client.cache), "/health-data", transport, now) else old(client.cache)
      ensures var o := if old(client.online) then Settle(old(client.cache), "/health-data", transport, now)
                       else Rejected(OfflineSubmitMessage);
              if o.Resolved? then healthForm == EmptyHealthForm && message == HealthSubmitted
              else healthForm == old(healthForm) && message == HealthSubmitFailed
    {
      var o := client.SubmitHealthData(transport, now);
      if o.Resolved? {
        message := HealthSubmitted;
        healthForm := EmptyHealthForm;
      } else {
        message := HealthSubmitFailed;
      }
    }
  }

  /** Offline, a filled-in water form survives its submit and nothing is sent. */
  method OfflineWaterSubmitKeepsForm(form: WaterForm, transport: Transport, now: int, loadTime: int)
      returns (kept: WaterForm, shown: string, sent: seq<Request>)
    ensures kept == form && shown == WaterSubmitFailed && sent == []
  {
    var client := new Client(false, loadTime);
    var page := new Page();
    page.waterForm := form;
    page.HandleWaterSubmit(client, transport, now);
    kept, shown, sent := page.waterForm, page.message, client.sent;
  }

  /** Two water submissions five minutes apart at most: the second is lost
      on the network, yet the response cached for "/water-data" by the
      first answers it, so the page reports success and clears the form. */
  method LostResubmitLooksSuccessful(first: WaterForm, second: WaterForm, stored: Json,
                                     t0: int, d: int, loadTime: int)
      returns (shown: string, kept: WaterForm, sent: seq<Request>)
    requires 0 <= d < CacheDuration
    ensures shown == WaterSubmitted && kept == EmptyWaterForm
    ensures sent == [Request(Post, "/water-data"), Request(Post, "/water-data")]
  {
    var client := new Client(true, loadTime);
    var page := new Page();
    page.waterForm := first;
    page.HandleWaterSubmit(client, Delivered(stored), t0);
    page.waterForm := second;
    page.HandleWaterSubmit(client, TransportError("Network Error"), t0 + d);
    shown, kept, sent := page.message, page.waterForm, client.sent;
  }
}
