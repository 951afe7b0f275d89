// The idempotency keys ApiClient.request keeps for mutations whose outcome is still uncertain.
module ApiClient {
  import opened Tables
  import opened CanonicalJson

  datatype Fingerprint = Fingerprint(organization: string, httpMethod: string, endpoint: string, body: Json)

  // A generated key is never empty.
  type NewKey = key: string | key != "" witness "k"

  // What a fetch comes to; an unreadable body is one that does not parse.
  datatype Reply = NoReply | HttpReply(status: nat, inProgress: bool, readable: bool)

  // The keys one browser tab holds. storage says whether session storage and SHA-256 are available.
  datatype Tab = Tab(pending: map<Fingerprint, string>, stored: map<Fingerprint, string>, storage: bool)

  predicate IsSuccess(reply: Reply) { reply.HttpReply? && 200 <= reply.status <= 299 }

  // After a definitive reply the key is dropped.
  predicate Definitive(reply: Reply) {
    reply.HttpReply? &&
    if IsSuccess(reply) then reply.readable else reply.status < 500 && !(reply.status == 409 && reply.inProgress)
  }

  // An absent or empty text is skipped by ||.
  function OrElse(first: Option<string>, second: Option<string>): Option<string> {
    if first.Some? && first.value != "" then first else second
  }

  function Lookup(keys: map<Fingerprint, string>, fp: Fingerprint): Option<string> {
    if fp in keys then Some(keys[fp]) else None
  }

  function HeldKey(tab: Tab, fp: Fingerprint): Option<string> {
    OrElse(Lookup(tab.pending, fp), if tab.storage then Lookup(tab.stored, fp) else None)
  }

  // The key a mutation is sent with: given by the caller, held from an uncertain attempt, or new.
  function KeyFor(tab: Tab, fp: Fingerprint, provided: Option<string>, newKey: NewKey): string {
    match OrElse(provided, OrElse(HeldKey(tab, fp), None))
    case Some(key) => key
    case None => newKey
  }

  function Remembered(tab: Tab, fp: Fingerprint, key: string): Tab {
    tab.(pending := tab.pending[fp := key], stored := if tab.storage then tab.stored[fp := key] else tab.stored)
  }

  function Forgotten(tab: Tab, fp: Fingerprint): Tab {
    tab.(pending := tab.pending - {fp}, stored := if tab.storage then tab.stored - {fp} else tab.stored)
  }

  function Settled(tab: Tab, fp: Fingerprint, reply: Reply): Tab {
    if Definitive(reply) then Forgotten(tab, fp) else tab
  }

  // The key of one request is gone from wherever this tab reads keys; every other key is where it was.
  ghost predicate OnlyDropped(before: Tab, after: Tab, fp: Fingerprint) {
    after.storage == before.storage && fp !in after.pending && (after.storage ==> fp !in after.stored) &&
    (!after.storage ==> after.stored == before.stored) &&
    forall other :: other != fp ==>
      (other in after.pending <==> other in before.pending) && (other in after.stored <==> other in before.stored) &&
      (other in after.pending ==> after.pending[other] == before.pending[other]) &&
      (other in after.stored ==> after.stored[other] == before.stored[other])
  }

  class Client {
    var pendingMutationKeys: map<Fingerprint, string>
    var sessionStorage: map<Fingerprint, string>
    const storage: bool

    constructor (storage: bool, sessionStorage: map<Fingerprint, string>)
      ensures Snapshot() == Tab(map[], sessionStorage, storage)
    {
      this.pendingMutationKeys, this.sessionStorage, this.storage := map[], sessionStorage, storage;
    }

    function Snapshot(): Tab
      reads this
    {
      Tab(pendingMutationKeys, sessionStorage, storage)
    }

    // The first half of request: choose the key and remember it before anything is sent. A key given by
    // the caller goes first, then one this tab still holds, in memory or else in session storage.
    method ChooseKey(fp: Fingerprint, provided: Option<string>, newKey: NewKey) returns (key: string)
      modifies this
      ensures key == KeyFor(old(Snapshot()), fp, provided, newKey)
      ensures provided.Some? && provided.value != "" ==> key == provided.value
      ensures provided in {None, Some("")} && fp in old(pendingMutationKeys) && old(pendingMutationKeys)[fp] != "" ==>
        key == old(pendingMutationKeys)[fp]
      ensures provided in {None, Some("")} && fp !in old(pendingMutationKeys) ==>
        var kept := storage && fp in old(sessionStorage) && old(sessionStorage)[fp] != "";
        key == if kept then old(sessionStorage)[fp] else newKey
      ensures Snapshot() == Remembered(old(Snapshot()), fp, key)
      ensures pendingMutationKeys == old(pendingMutationKeys)[fp := key]
      ensures sessionStorage == if storage then old(sessionStorage)[fp := key] else old(sessionStorage)
    {
      var held := Lookup(pendingMutationKeys, fp);
      if held.None? || held.value == "" { held := if storage then Lookup(sessionStorage, fp) else None; }
      if provided.Some? && provided.value != "" {
        key := provided.value;
      } else if held.Some? && held.value != "" {
        key := held.value;
      } else {
        key := newKey;
      }
      pendingMutationKeys := pendingMutationKeys[fp := key];
      if storage { sessionStorage := sessionStorage[fp := key]; }
    }

    // The second half: keep or drop the key once the fetch has ended. No reply, a server error, a
    // command still in progress and an unreadable success leave the keys alone; a readable success and
    // every other status below 500 drop this request's key and no other.
    method Settle(fp: Fingerprint, reply: Reply)
      modifies this
      ensures Snapshot() == Settled(old(Snapshot()), fp, reply)
      ensures reply.NoReply? ==> Snapshot() == old(Snapshot())
      ensures reply.HttpReply? && reply.status >= 500 ==> Snapshot() == old(Snapshot())
      ensures reply.HttpReply? && reply.status == 409 && reply.inProgress ==> Snapshot() == old(Snapshot())
      ensures reply.HttpReply? && 200 <= reply.status <= 299 && !reply.readable ==> Snapshot() == old(Snapshot())
      ensures reply.HttpReply? && 200 <= reply.status <= 299 && reply.readable ==>
        OnlyDropped(old(Snapshot()), Snapshot(), fp)
      ensures reply.HttpReply? && reply.status == 409 && !reply.inProgress ==>
        OnlyDropped(old(Snapshot()), Snapshot(), fp)
      ensures reply.HttpReply? && (reply.status < 200 || 300 <= reply.status <= 499) && reply.status != 409 ==>
        OnlyDropped(old(Snapshot()), Snapshot(), fp)
    {
      if reply.NoReply? { return; }
      if !IsSuccess(reply) {
        var inProgress409 := reply.status == 409 && reply.inProgress;
        if reply.status < 500 && !inProgress409 { ClearKey(fp); }
        return;
      }
      if !reply.readable { return; }
      ClearKey(fp);
    }

    method ClearKey(fp: Fingerprint)
      modifies this
      ensures Snapshot() == Forgotten(old(Snapshot()), fp)
    {
      pendingMutationKeys := pendingMutationKeys - {fp};
      if storage { sessionStorage := sessionStorage - {fp}; }
    }
  }
}
