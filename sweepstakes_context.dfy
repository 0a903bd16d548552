/**
 * The sweepstakes provider: the per-tab session state (client, entrants,
 * pulls, error, loading and paid flags, the selected sweepstakes) and the
 * methods the views call. Every SDK call is given as a parameter holding what
 * the call resolved to or that it threw; a ghost log records which SDK calls
 * a method made, so that a guard failing can be seen to make none.
 */
module SweepstakesContext {
  import opened Js
  import opened JsString
  import WalletContext

  /** The selected sweepstakes as the provider keeps it. */
  datatype SweepstakesData = SweepstakesData(id: string, creator: string, details: Option<string>, locked: Option<bool>)

  /** The SDK operations the provider invokes. */
  datatype SdkCall =
    | SetRaffleEntrants(list: seq<string>)
    | PullRaffle
    | ViewRaffleOwners
    | ViewEntrants
    | ViewUserPulls

  /** Every piece of provider state, as one value. */
  datatype State = State(
    hasClient: bool,
    isPaid: bool,
    isLoading: bool,
    isListLocked: bool,
    error: Option<string>,
    entrants: seq<string>,
    pulls: seq<JsObject>,
    userId: string,
    allSweepstakesIds: seq<string>,
    currentSweepstakesId: string,
    sweepstakesData: Option<SweepstakesData>,
    sweepstakesDetails: string)

  const ClientNotReady := "Client not initialized or wallet not connected"
  const ClientOrSelectionMissing := "Client not initialized or no sweepstakes selected"
  const NoSelection := "No sweepstakes selected"
  const NoEntrantsToRegister := "No entrants to register"
  const NoEntrantsToUpdate := "No entrants to update"
  const BlankEntrant := "Entrant name cannot be empty"
  const PaymentRequired := "You must register with payment first"
  const InitFailed := "Failed to initialize sweepstakes client"
  const RegisterFailed := "Failed to register sweepstakes"
  const UpdateFailed := "Failed to update entrants"
  const AddFailed := "Failed to add entrant"
  const PullFailed := "Failed to pull winner"

  /** The fixed listing that stands in for the SDK's list of sweepstakes. */
  const MockSweepstakesIds: seq<string> := ["sweepstakes1", "sweepstakes2", "sweepstakes3"]

  /** The fixed details blob a looked-up sweepstakes is given. */
  const MockDetails := "{\"name\": \"Sample Sweepstakes\", \"prize\": \"$100\"}"

  const InitialState := State(false, false, false, false, None, [], [], "", [], "", None, "")

  /** `response && Array.isArray(response) ? response : []` for `viewEntrants`; a non-array reply is None. */
  function EntrantsFrom(reply: Reply<Option<seq<string>>>): seq<string>
  {
    if reply.Returned? && reply.value.Some? then reply.value.value else []
  }

  /** `response && response.pulls ? response.pulls : []` for `viewUserPulls`; a reply without pulls is None. */
  function PullsFrom(reply: Reply<Option<seq<JsObject>>>): seq<JsObject>
  {
    if reply.Returned? && reply.value.Some? then reply.value.value else []
  }

  class Provider {
    var hasClient: bool
    var isPaid: bool
    var isLoading: bool
    var isListLocked: bool
    var error: Option<string>
    var entrants: seq<string>
    var pulls: seq<JsObject>
    var userId: string
    var allSweepstakesIds: seq<string>
    var currentSweepstakesId: string
    var sweepstakesData: Option<SweepstakesData>
    var sweepstakesDetails: string
    ghost var sdkCalls: seq<SdkCall>

    function Snapshot(): State
      reads this
    {
      State(hasClient, isPaid, isLoading, isListLocked, error, entrants, pulls, userId,
            allSweepstakesIds, currentSweepstakesId, sweepstakesData, sweepstakesDetails)
    }

    /**
     * Only a session with a client is ever marked paid, and the selected id
     * is the id of the stored sweepstakes record ("" while there is none).
     */
    ghost predicate Valid()
      reads this
    {
      && (isPaid ==> hasClient)
      && currentSweepstakesId == (if sweepstakesData.Some? then sweepstakesData.value.id else "")
    }

    /** The provider's initial hook values. */
    constructor ()
      ensures Valid() && Snapshot() == InitialState && sdkCalls == []
    {
      hasClient, isPaid, isLoading, isListLocked := false, false, false, false;
      error := None;
      entrants, pulls := [], [];
      userId := "";
      allSweepstakesIds := [];
      currentSweepstakesId := "";
      sweepstakesData := None;
      sweepstakesDetails := "";
      sdkCalls := [];
    }

    /**
     * `initClient`, run whenever the wallet connection changes. A session
     * without a connected wallet and address is reset; otherwise a client is
     * created (which may throw), the wallet address becomes the user id and
     * the listing is loaded.
     */
    method InitClient(isConnected: bool, address: Option<string>, created: Reply<()>)
      requires Valid()
      modifies this
      ensures Valid() && sdkCalls == old(sdkCalls)
      ensures !isConnected || !Truthy(address) ==>
        Snapshot() == old(Snapshot()).(hasClient := false, isPaid := false, userId := "",
                                       pulls := [], entrants := [], error := None)
      ensures isConnected && Truthy(address) && created.Returned? ==>
        Snapshot() == old(Snapshot()).(hasClient := true, userId := address.value,
                                       allSweepstakesIds := MockSweepstakesIds,
                                       isLoading := false, error := None)
      ensures isConnected && Truthy(address) && created.Threw? ==>
        Snapshot() == old(Snapshot()).(isLoading := false, error := Some(ErrorText(created.message, InitFailed)))
    {
      if !isConnected || !Truthy(address) {
        hasClient := false;
        isPaid := false;
        userId := "";
        pulls := [];
        entrants := [];
        error := None;
        return;
      }
      isLoading := true;
      error := None;
      if created.Threw? {
        error := Some(ErrorText(created.message, InitFailed));
        isLoading := false;
        return;
      }
      hasClient := true;
      userId := address.value;
      allSweepstakesIds := MockSweepstakesIds;
      isLoading := false;
    }

    /** `loadAllSweepstakes`: with a client and a user id, reload the (fixed) listing. */
    method LoadAllSweepstakes()
      requires Valid()
      modifies this
      ensures Valid() && sdkCalls == old(sdkCalls)
      ensures if old(hasClient) && old(userId) != []
              then Snapshot() == old(Snapshot()).(allSweepstakesIds := MockSweepstakesIds, isLoading := false)
              else Snapshot() == old(Snapshot())
    {
      if !hasClient || userId == [] {
        return;
      }
      isLoading := true;
      allSweepstakesIds := MockSweepstakesIds;
      isLoading := false;
    }

    /** `checkOwnershipStatus`: owner exactly when `viewRaffleOwners` resolves to an array holding the user id. */
    method CheckOwnershipStatus(owners: Reply<Option<seq<string>>>) returns (isOwner: bool)
      modifies this
      ensures Snapshot() == old(Snapshot()) && sdkCalls == old(sdkCalls) + [ViewRaffleOwners]
      ensures isOwner <==> owners.Returned? && owners.value.Some? && userId in owners.value.value
    {
      sdkCalls := sdkCalls + [ViewRaffleOwners];
      isOwner := owners.Returned? && owners.value.Some? && userId in owners.value.value;
    }

    /** `loadSweepstakesEntrants`: the entrants become the array `viewEntrants` resolves to, and [] otherwise. */
    method LoadSweepstakesEntrants(reply: Reply<Option<seq<string>>>)
      requires Valid()
      modifies this
      ensures Valid() && sdkCalls == old(sdkCalls) + [ViewEntrants]
      ensures Snapshot() == old(Snapshot()).(entrants := EntrantsFrom(reply))
    {
      sdkCalls := sdkCalls + [ViewEntrants];
      entrants := EntrantsFrom(reply);
    }

    /** `loadSweepstakesPulls`: the pulls become the `pulls` of what `viewUserPulls` resolves to, and [] otherwise. */
    method LoadSweepstakesPulls(reply: Reply<Option<seq<JsObject>>>)
      requires Valid()
      modifies this
      ensures Valid() && sdkCalls == old(sdkCalls) + [ViewUserPulls]
      ensures Snapshot() == old(Snapshot()).(pulls := PullsFrom(reply))
    {
      sdkCalls := sdkCalls + [ViewUserPulls];
      pulls := PullsFrom(reply);
    }

    /**
     * `getSweepstakesById`: without a client it fails with an error. Otherwise
     * the paid flag becomes the ownership answer, the fixed record for `id` is
     * stored and selected, the list is unlocked, and entrants and pulls are
     * reloaded. The helpers catch their own errors, so this always succeeds.
     */
    method GetSweepstakesById(id: string, owners: Reply<Option<seq<string>>>,
                              entrantsReply: Reply<Option<seq<string>>>,
                              pullsReply: Reply<Option<seq<JsObject>>>) returns (found: bool)
      requires Valid()
      modifies this
      ensures Valid()
      ensures found == old(hasClient)
      ensures !found ==> Snapshot() == old(Snapshot()).(error := Some(ClientNotReady)) && sdkCalls == old(sdkCalls)
      ensures found ==>
        && sdkCalls == old(sdkCalls) + [ViewRaffleOwners, ViewEntrants, ViewUserPulls]
        && Snapshot() == old(Snapshot()).(
             isLoading := false, error := None,
             isPaid := owners.Returned? && owners.value.Some? && old(userId) in owners.value.value,
             sweepstakesData := Some(SweepstakesData(id, old(userId), Some(MockDetails), Some(false))),
             isListLocked := false, currentSweepstakesId := id,
             entrants := EntrantsFrom(entrantsReply), pulls := PullsFrom(pullsReply))
    {
      if !hasClient {
        error := Some(ClientNotReady);
        return false;
      }
      isLoading := true;
      error := None;
      var isOwner := CheckOwnershipStatus(owners);
      Select(id, isOwner);
      LoadSweepstakesEntrants(entrantsReply);
      LoadSweepstakesPulls(pullsReply);
      isLoading := false;
      found := true;
    }

    /**
     * The selection step of `getSweepstakesById`: the paid flag becomes the
     * ownership answer and the fixed record for `id`, created by the current
     * user, is stored, selected and unlocked.
     */
    method Select(id: string, isOwner: bool)
      requires Valid() && hasClient
      modifies this
      ensures Valid() && sdkCalls == old(sdkCalls)
      ensures Snapshot() == old(Snapshot()).(
        isPaid := isOwner,
        sweepstakesData := Some(SweepstakesData(id, old(userId), Some(MockDetails), Some(false))),
        isListLocked := false, currentSweepstakesId := id)
    {
      isPaid := isOwner;
      sweepstakesData := Some(SweepstakesData(id, userId, Some(MockDetails), Some(false)));
      isListLocked := false;
      currentSweepstakesId := id;
    }

    /**
     * `registerSweepstakes`: fails without a client, then without entrants,
     * each with its own error and no SDK call. Otherwise the entrants are sent;
     * a truthy answer selects a new "sw-" id, stores its record, marks the
     * session paid and reloads the listing; a falsy answer or a throw sets an
     * error. Loading is cleared on every path that set it.
     */
    method RegisterSweepstakes(reply: Reply<bool>, idSuffix: string) returns (id: Option<string>)
      requires Valid()
      modifies this
      ensures Valid()
      ensures id.Some? ==> StartsWith(id.value, "sw-") && currentSweepstakesId == id.value && isPaid
      ensures !old(hasClient) ==>
        id.None? && Snapshot() == old(Snapshot()).(error := Some(ClientNotReady)) && sdkCalls == old(sdkCalls)
      ensures old(hasClient) && old(entrants) == [] ==>
        id.None? && Snapshot() == old(Snapshot()).(error := Some(NoEntrantsToRegister)) && sdkCalls == old(sdkCalls)
      ensures old(hasClient) && old(entrants) != [] ==>
        sdkCalls == old(sdkCalls) + [SetRaffleEntrants(old(entrants))]
      ensures old(hasClient) && old(entrants) != [] && reply == Returned(true) ==>
        && id == Some("sw-" + idSuffix)
        && Snapshot() == old(Snapshot()).(
             currentSweepstakesId := id.value,
             sweepstakesData := Some(SweepstakesData(id.value, old(userId), Some(old(sweepstakesDetails)), None)),
             isPaid := true, allSweepstakesIds := MockSweepstakesIds, isLoading := false)
      ensures old(hasClient) && old(entrants) != [] && reply == Returned(false) ==>
        id.None? && Snapshot() == old(Snapshot()).(error := Some(RegisterFailed), isLoading := false)
      ensures old(hasClient) && old(entrants) != [] && reply.Threw? ==>
        id.None? && Snapshot() == old(Snapshot()).(error := Some(ErrorText(reply.message, RegisterFailed)), isLoading := false)
    {
      if !hasClient {
        error := Some(ClientNotReady);
        return None;
      }
      if |entrants| == 0 {
        error := Some(NoEntrantsToRegister);
        return None;
      }
      isLoading := true;
      sdkCalls := sdkCalls + [SetRaffleEntrants(entrants)];
      if reply.Threw? {
        error := Some(ErrorText(reply.message, RegisterFailed));
        isLoading := false;
        return None;
      }
      if reply.value {
        var newId := "sw-" + idSuffix;
        currentSweepstakesId := newId;
        sweepstakesData := Some(SweepstakesData(newId, userId, Some(sweepstakesDetails), None));
        isPaid := true;
        allSweepstakesIds := MockSweepstakesIds;
        isLoading := false;
        return Some(newId);
      }
      error := Some(RegisterFailed);
      isLoading := false;
      return None;
    }

    /**
     * `updateEntrants(entrantsList?)`: fails without a client, then without a
     * selected sweepstakes, then when the list to send (the given one, else the
     * context's) is empty. Otherwise the list is sent; when it was given and
     * the call did not throw it becomes the entrants, whatever the answer. A
     * throw sets an error and leaves the entrants alone.
     */
    method UpdateEntrants(entrantsList: Option<seq<string>>, reply: Reply<bool>) returns (ok: bool)
      requires Valid()
      modifies this
      ensures Valid()
      ensures ok ==> reply == Returned(true)
      ensures !old(hasClient) ==>
        !ok && Snapshot() == old(Snapshot()).(error := Some(ClientNotReady)) && sdkCalls == old(sdkCalls)
      ensures old(hasClient) && old(currentSweepstakesId) == [] ==>
        !ok && Snapshot() == old(Snapshot()).(error := Some(NoSelection)) && sdkCalls == old(sdkCalls)
      ensures var toSend := if entrantsList.Some? then entrantsList.value else old(entrants);
        && (old(hasClient) && old(currentSweepstakesId) != [] && toSend == [] ==>
             !ok && Snapshot() == old(Snapshot()).(error := Some(NoEntrantsToUpdate)) && sdkCalls == old(sdkCalls))
        && (old(hasClient) && old(currentSweepstakesId) != [] && toSend != [] ==>
             && sdkCalls == old(sdkCalls) + [SetRaffleEntrants(toSend)]
             && (reply.Returned? ==>
                  ok == reply.value && Snapshot() == old(Snapshot()).(entrants := toSend, isLoading := false))
             && (reply.Threw? ==>
                  !ok && Snapshot() == old(Snapshot()).(error := Some(ErrorText(reply.message, UpdateFailed)), isLoading := false)))
    {
      if !hasClient {
        error := Some(ClientNotReady);
        return false;
      }
      if currentSweepstakesId == [] {
        error := Some(NoSelection);
        return false;
      }
      var toSend := if entrantsList.Some? then entrantsList.value else entrants;
      if |toSend| == 0 {
        error := Some(NoEntrantsToUpdate);
        return false;
      }
      isLoading := true;
      sdkCalls := sdkCalls + [SetRaffleEntrants(toSend)];
      if reply.Threw? {
        error := Some(ErrorText(reply.message, UpdateFailed));
        isLoading := false;
        return false;
      }
      if entrantsList.Some? {
        entrants := entrantsList.value;
      }
      isLoading := false;
      ok := reply.value;
    }

    /**
     * `addEntrant(entrant)`: fails without a client or selection, then for a
     * name blank after trimming. Otherwise the entrants with the trimmed name
     * appended are sent, and become the entrants only on a truthy answer.
     */
    method AddEntrant(entrant: string, reply: Reply<bool>) returns (ok: bool)
      requires Valid()
      modifies this
      ensures Valid()
      ensures ok ==> reply == Returned(true) && entrants == old(entrants) + [Trim(entrant)]
      ensures !ok ==> entrants == old(entrants)
      ensures !old(hasClient) || old(currentSweepstakesId) == [] ==>
        !ok && Snapshot() == old(Snapshot()).(error := Some(ClientOrSelectionMissing)) && sdkCalls == old(sdkCalls)
      ensures old(hasClient) && old(currentSweepstakesId) != [] && Trim(entrant) == [] ==>
        !ok && Snapshot() == old(Snapshot()).(error := Some(BlankEntrant)) && sdkCalls == old(sdkCalls)
      ensures old(hasClient) && old(currentSweepstakesId) != [] && Trim(entrant) != [] ==>
        && sdkCalls == old(sdkCalls) + [SetRaffleEntrants(old(entrants) + [Trim(entrant)])]
        && (reply == Returned(true) ==>
             ok && Snapshot() == old(Snapshot()).(entrants := old(entrants) + [Trim(entrant)], isLoading := false))
        && (reply == Returned(false) ==>
             !ok && Snapshot() == old(Snapshot()).(isLoading := false))
        && (reply.Threw? ==>
             !ok && Snapshot() == old(Snapshot()).(error := Some(ErrorText(reply.message, AddFailed)), isLoading := false))
    {
      if !hasClient || currentSweepstakesId == [] {
        error := Some(ClientOrSelectionMissing);
        return false;
      }
      var name := Trim(entrant);
      if name == [] {
        error := Some(BlankEntrant);
        return false;
      }
      isLoading := true;
      var updated := entrants + [name];
      sdkCalls := sdkCalls + [SetRaffleEntrants(updated)];
      if reply.Threw? {
        error := Some(ErrorText(reply.message, AddFailed));
        isLoading := false;
        return false;
      }
      if reply.value {
        entrants := updated;
      }
      isLoading := false;
      ok := reply.value;
    }

    /** `refreshPulls`: with a client and a selection, reload the pulls; loading ends cleared. */
    method RefreshPulls(pullsReply: Reply<Option<seq<JsObject>>>)
      requires Valid()
      modifies this
      ensures Valid()
      ensures if old(hasClient) && old(currentSweepstakesId) != []
              then Snapshot() == old(Snapshot()).(pulls := PullsFrom(pullsReply), isLoading := false)
                   && sdkCalls == old(sdkCalls) + [ViewUserPulls]
              else Snapshot() == old(Snapshot()) && sdkCalls == old(sdkCalls)
    {
      if !hasClient || currentSweepstakesId == [] {
        return;
      }
      isLoading := true;
      LoadSweepstakesPulls(pullsReply);
      isLoading := false;
    }

    /** `loadEntrants`: with a client and a selection, reload the entrants; loading ends cleared. */
    method LoadEntrants(entrantsReply: Reply<Option<seq<string>>>)
      requires Valid()
      modifies this
      ensures Valid()
      ensures if old(hasClient) && old(currentSweepstakesId) != []
              then Snapshot() == old(Snapshot()).(entrants := EntrantsFrom(entrantsReply), isLoading := false)
                   && sdkCalls == old(sdkCalls) + [ViewEntrants]
              else Snapshot() == old(Snapshot()) && sdkCalls == old(sdkCalls)
    {
      if !hasClient || currentSweepstakesId == [] {
        return;
      }
      isLoading := true;
      LoadSweepstakesEntrants(entrantsReply);
      isLoading := false;
    }

    /**
     * `pullWinner`: fails without a client or selection, then when the
     * session is not paid. Otherwise the pull is requested; a truthy answer
     * reloads the pulls, and a throw sets an error. Loading ends cleared.
     */
    method PullWinner(reply: Reply<bool>, pullsReply: Reply<Option<seq<JsObject>>>) returns (ok: bool)
      requires Valid()
      modifies this
      ensures Valid()
      ensures ok ==> old(hasClient) && old(currentSweepstakesId) != [] && old(isPaid) && reply == Returned(true)
      ensures !old(hasClient) || old(currentSweepstakesId) == [] ==>
        !ok && Snapshot() == old(Snapshot()).(error := Some(ClientOrSelectionMissing)) && sdkCalls == old(sdkCalls)
      ensures old(hasClient) && old(currentSweepstakesId) != [] && !old(isPaid) ==>
        !ok && Snapshot() == old(Snapshot()).(error := Some(PaymentRequired)) && sdkCalls == old(sdkCalls)
      ensures old(hasClient) && old(currentSweepstakesId) != [] && old(isPaid) ==>
        && (reply == Returned(true) ==>
             ok && Snapshot() == old(Snapshot()).(pulls := PullsFrom(pullsReply), isLoading := false)
             && sdkCalls == old(sdkCalls) + [PullRaffle, ViewUserPulls])
        && (reply == Returned(false) ==>
             !ok && Snapshot() == old(Snapshot()).(isLoading := false) && sdkCalls == old(sdkCalls) + [PullRaffle])
        && (reply.Threw? ==>
             !ok && Snapshot() == old(Snapshot()).(error := Some(ErrorText(reply.message, PullFailed)), isLoading := false)
             && sdkCalls == old(sdkCalls) + [PullRaffle])
    {
      if !hasClient || currentSweepstakesId == [] {
        error := Some(ClientOrSelectionMissing);
        return false;
      }
      if !isPaid {
        error := Some(PaymentRequired);
        return false;
      }
      isLoading := true;
      sdkCalls := sdkCalls + [PullRaffle];
      if reply.Threw? {
        error := Some(ErrorText(reply.message, PullFailed));
        isLoading := false;
        return false;
      }
      if reply.value {
        RefreshPulls(pullsReply);
      }
      isLoading := false;
      ok := reply.value;
    }
  }

  /**
   * The wallet's `disconnect` followed by the provider's effect, which runs
   * `initClient` again because `isConnected` and `address` changed: the
   * session is reset whatever the client factory would have done.
   */
  method DisconnectWallet(wallet: WalletContext.WalletProvider, provider: Provider, created: Reply<()>)
    requires provider.Valid()
    modifies wallet, provider
    ensures provider.Valid() && provider.sdkCalls == old(provider.sdkCalls)
    ensures wallet.address == None && !wallet.isConnected
    ensures provider.Snapshot() == old(provider.Snapshot()).(hasClient := false, isPaid := false, userId := "",
                                                             pulls := [], entrants := [], error := None)
  {
    wallet.Disconnect();
    provider.InitClient(wallet.isConnected, wallet.address, created);
  }
}
