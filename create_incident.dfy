/** The "Report Incident" page: the payload its submit handler assembles and the
    mutation that either posts it or, when the browser is offline, stamps it with a
    client-side idempotency key and puts it on the offline queue. */
module CreateIncident {
  import opened Common
  import opened OfflineQueue

  /** The page's form state. */
  datatype FormData = FormData(incidentType: string, severity: string, description: string, siteId: string)

  /** The signed-in user as the auth context exposes it. */
  datatype CurrentUser = CurrentUser(id: string, name: string, companyId: string)

  /** The form's fields as the keys of a request body. */
  function FormFields(form: FormData): Payload {
    map["type" := Str(form.incidentType), "severity" := Str(form.severity),
        "description" := Str(form.description), "siteId" := Str(form.siteId)]
  }

  /** `handleSubmit`: the form fields plus the company, id and name of the current user. */
  function SubmittedData(form: FormData, user: Option<CurrentUser>): (d: Payload)
    ensures d.Keys == FormFields(form).Keys + {"companyId", "reporterId", "reporterName"}
    ensures forall k :: k in FormFields(form) ==> d[k] == FormFields(form)[k]
    ensures user.Some? ==>
      && d["companyId"] == Str(user.value.companyId)
      && d["reporterId"] == Str(user.value.id)
      && d["reporterName"] == Str(user.value.name)
    ensures user.None? ==> d["companyId"] == d["reporterId"] == d["reporterName"] == Undefined
  {
    // `user?.x` is undefined when nobody is signed in
    if user.Some? then
      FormFields(form)["companyId" := Str(user.value.companyId)]
                      ["reporterId" := Str(user.value.id)]
                      ["reporterName" := Str(user.value.name)]
    else
      FormFields(form)["companyId" := Undefined]["reporterId" := Undefined]["reporterName" := Undefined]
  }

  /** `{ ...data, clientTempId, createdAt }`: every submitted field is kept, except that the
      two stamped keys take their new values. */
  function OfflineData(data: Payload, clientTempId: string, createdAt: string): (r: Payload)
    ensures r.Keys == data.Keys + {"clientTempId", "createdAt"}
    ensures forall k :: k in data && k != "clientTempId" && k != "createdAt" ==> r[k] == data[k]
    ensures r["clientTempId"] == Str(clientTempId) && r["createdAt"] == Str(createdAt)
  {
    data["clientTempId" := Str(clientTempId)]["createdAt" := Str(createdAt)]
  }

  /** What the mutation did: queued the stamped payload (and returned it), or sent a
      request to the API (whose response it returns; the server side is modelled elsewhere). */
  datatype Outcome = Queued(data: Payload) | Sent(request: Request)

  /** The request the capture path creates for an incident body. */
  function PostIncident(data: Payload): Request {
    Request("/incidents", POST, data)
  }

  /** `mutationFn`. `online` is `navigator.onLine`; `clientTempId` is the fresh uuid,
      `createdAt` the ISO text of the current time and `now` its milliseconds. */
  method MutationFn(data: Payload, online: bool, queue: OfflineStore,
                    clientTempId: string, createdAt: string, now: int)
    returns (outcome: Outcome)
    requires queue.Valid()
    modifies queue
    ensures queue.Valid()
    ensures !online ==>
      && outcome == Queued(OfflineData(data, clientTempId, createdAt))
      && old(queue.nextKey) !in old(queue.entries)
      && queue.entries == old(queue.entries)[old(queue.nextKey) :=
           Entry(old(queue.nextKey), PostIncident(OfflineData(data, clientTempId, createdAt)), now)]
    ensures online ==>
      && outcome == Sent(PostIncident(data))
      && queue.entries == old(queue.entries) && queue.nextKey == old(queue.nextKey)
  {
    if !online {
      var offlineData := OfflineData(data, clientTempId, createdAt);
      queue.AddToQueue(PostIncident(offlineData), now);
      return Queued(offlineData);
    }
    outcome := Sent(PostIncident(data));
  }

  /** An offline submission's queued body carries the generated key, every form field
      and the user's company, which the server's tenant check compares. */
  lemma {:induction false} OfflineSubmissionBody(form: FormData, user: Option<CurrentUser>, clientTempId: string, createdAt: string)
    ensures var body := OfflineData(SubmittedData(form, user), clientTempId, createdAt);
      && body["clientTempId"] == Str(clientTempId)
      && (forall k :: k in FormFields(form) ==> body[k] == FormFields(form)[k])
      && (user.Some? ==> body["companyId"] == Str(user.value.companyId))
  {
    var data := SubmittedData(form, user);
    var body := OfflineData(data, clientTempId, createdAt);
    assert "clientTempId" !in FormFields(form) && "createdAt" !in FormFields(form);
    forall k | k in FormFields(form) ensures body[k] == FormFields(form)[k] {
      assert k in data && k != "clientTempId" && k != "createdAt";
    }
  }
}
