/**
 * The buddies tab of the dashboard: the set of users a request is being
 * sent to, the button each buddy card shows, the outcome of a connection
 * request and of accepting or declining one, and the tab switch.
 */
module BuddiesTab {
  import opened Common
  import Buddies
  import Models

  const CONNECTED_TAB: string := "connected"
  const SEND_FAILED: string := "Failed to send connection request"
  const CONNECT_RETRY: string := "Failed to connect. Please try again."
  const ACCEPT_FAILED: string := "Failed to accept connection request"
  const DECLINE_FAILED: string := "Failed to decline connection request"

  /**
   * How a POST ended: an answer with its `success` flag and `message`, or
   * an exception carrying the error response's `message`, if any.
   */
  datatype Response = Answered(success: bool, message: Option<string>) | Errored(responseMessage: Option<string>)

  /** The connection error a connect request leaves: none on success, else the message or a default text. */
  function ConnectError(r: Response): (e: Option<string>)
    ensures e.None? <==> r.Answered? && r.success
    ensures e.Some? ==> e.value != []
    ensures r.Answered? && !r.success && !Truthy(r.message) ==> e == Some(SEND_FAILED)
    ensures r.Errored? && !Truthy(r.responseMessage) ==> e == Some(CONNECT_RETRY)
    ensures r.Answered? && !r.success && Truthy(r.message) ==> e == r.message
    ensures r.Errored? && Truthy(r.responseMessage) ==> e == r.responseMessage
  {
    match r
    case Answered(success, message) =>
      if success then None else if Truthy(message) then message else Some(SEND_FAILED)
    case Errored(message) => if Truthy(message) then message else Some(CONNECT_RETRY)
  }

  /**
   * The response the connect route's reply becomes: a 200 answers with
   * `success`; any other status is an exception whose body holds only an
   * `error` field (a 500 also has a `message`).
   */
  function ResponseOf(reply: Reply, serverMessage: Option<string>): (r: Response)
    ensures reply.code == 200 <==> r.Answered?
  {
    if reply.code == 200 then Answered(true, Some(reply.text))
    else if reply.code == 500 then Errored(serverMessage)
    else Errored(None)
  }

  /**
   * The reason a connect request is refused ("Connection already exists",
   * "Cannot connect with yourself", ...) travels as `error`, which the tab
   * does not read: the user sees the generic text instead.
   */
  lemma RefusalReasonNotShown(reply: Reply, serverMessage: Option<string>)
    requires 400 <= reply.code < 500
    ensures ConnectError(ResponseOf(reply, serverMessage)) == Some(CONNECT_RETRY)
  {
  }

  /** A successful reply of the connect route leaves no error. */
  lemma AcceptedRequestLeavesNoError(reply: Reply, serverMessage: Option<string>)
    requires reply.code == 200
    ensures ConnectError(ResponseOf(reply, serverMessage)).None?
  {
  }

  // ---------------------------------------------------------------- buttons

  /** The button of a buddy card. */
  datatype Button = MessageButton | RequestSentButton | RequestReceivedButton | ConnectButton(connecting: bool)
  {
    predicate Disabled()
    {
      RequestSentButton? || RequestReceivedButton? || (ConnectButton? && connecting)
    }

    function Label(): string
    {
      match this
      case MessageButton => "Message"
      case RequestSentButton => "Request Sent"
      case RequestReceivedButton => "Request Received"
      case ConnectButton(c) => if c then "Connecting..." else "Connect"
    }
  }

  /**
   * The button of a card: always Message in the connected tab; elsewhere by
   * the card's status, a Connect button being busy while its buddy's id is
   * being connected to.
   */
  function ButtonFor(tab: string, status: string, id: nat, connecting: set<nat>): (b: Button)
    ensures tab == CONNECTED_TAB ==> b == MessageButton
    ensures tab != CONNECTED_TAB ==> (b == MessageButton <==> status == Buddies.CONNECTED)
    ensures tab != CONNECTED_TAB ==> (b == RequestSentButton <==> status == Buddies.REQUEST_SENT)
    ensures tab != CONNECTED_TAB ==> (b == RequestReceivedButton <==> status == Buddies.REQUEST_RECEIVED)
    ensures b.ConnectButton? ==> (b.Disabled() <==> id in connecting)
  {
    if tab == CONNECTED_TAB then MessageButton
    else if status == Buddies.CONNECTED then MessageButton
    else if status == Buddies.REQUEST_SENT then RequestSentButton
    else if status == Buddies.REQUEST_RECEIVED then RequestReceivedButton
    else ConnectButton(id in connecting)
  }

  /** Only a not-yet-connected buddy outside the connected tab offers a Connect button. */
  lemma ConnectOfferedOnlyToStrangers(tab: string, rows: seq<Models.Connection>, me: nat, other: nat, connecting: set<nat>)
    ensures ButtonFor(tab, Buddies.ConnectionStatus(rows, me, other), other, connecting).ConnectButton?
            <==> tab != CONNECTED_TAB && Buddies.ConnectionStatus(rows, me, other) == Buddies.NOT_CONNECTED
  {
  }

  // ------------------------------------------------------------------ state

  /** The state the tab keeps: the open tab, the connection error, the ids being connected to and the refreshes asked for. */
  class TabState {
    var tab: string
    var connectionError: Option<string>
    var connectingUsers: set<nat>
    var refreshes: nat

    constructor (tab: string)
      ensures this.tab == tab && connectionError.None? && connectingUsers == {} && refreshes == 0
    {
      this.tab := tab;
      connectionError := None;
      connectingUsers := {};
      refreshes := 0;
    }

    /** The start of `handleConnect`: the id joins the set and the error is cleared. */
    method BeginConnect(id: nat)
      modifies this
      ensures connectingUsers == old(connectingUsers) + {id}
      ensures connectionError.None?
      ensures tab == old(tab) && refreshes == old(refreshes)
      ensures tab != CONNECTED_TAB ==> ButtonFor(tab, Buddies.NOT_CONNECTED, id, connectingUsers).Disabled()
    {
      connectingUsers := connectingUsers + {id};
      connectionError := None;
    }

    /**
     * The end of `handleConnect`: a success asks for a refresh (when the
     * page passed one), any other answer records the error; the id, and
     * only it, leaves the set whatever the outcome.
     */
    method FinishConnect(id: nat, r: Response, canRefresh: bool)
      modifies this
      ensures connectingUsers == old(connectingUsers) - {id}
      ensures connectionError == (if r.Answered? && r.success then old(connectionError) else ConnectError(r))
      ensures refreshes == old(refreshes) + (if r.Answered? && r.success && canRefresh then 1 else 0)
      ensures tab == old(tab)
      ensures !ButtonFor(tab, Buddies.NOT_CONNECTED, id, connectingUsers).Disabled()
    {
      if r.Answered? && r.success {
        if canRefresh {
          refreshes := refreshes + 1;
        }
      } else {
        connectionError := ConnectError(r);
      }
      connectingUsers := connectingUsers - {id};
    }

    /** `handleConnect` from click to settlement. */
    method HandleConnect(id: nat, r: Response, canRefresh: bool)
      modifies this
      ensures connectingUsers == old(connectingUsers) - {id}
      ensures connectionError == ConnectError(r)
      ensures refreshes == old(refreshes) + (if r.Answered? && r.success && canRefresh then 1 else 0)
      ensures tab == old(tab)
    {
      BeginConnect(id);
      FinishConnect(id, r, canRefresh);
    }

    /**
     * `handleAcceptRequest` / `handleDeclineRequest`: a successful answer
     * asks for a refresh; an exception records the fixed text of the
     * action; an unsuccessful answer changes nothing.
     */
    method HandleRequestAction(accept: bool, r: Response, canRefresh: bool)
      modifies this
      ensures r.Errored? ==> connectionError == Some(if accept then ACCEPT_FAILED else DECLINE_FAILED)
      ensures r.Answered? ==> connectionError == old(connectionError)
      ensures refreshes == old(refreshes) + (if r.Answered? && r.success && canRefresh then 1 else 0)
      ensures connectingUsers == old(connectingUsers) && tab == old(tab)
    {
      match r {
        case Answered(success, _) =>
          if success && canRefresh {
            refreshes := refreshes + 1;
          }
        case Errored(_) =>
          connectionError := Some(if accept then ACCEPT_FAILED else DECLINE_FAILED);
      }
    }

    /** Choosing a tab clears the connection error. */
    method SwitchTab(t: string)
      modifies this
      ensures tab == t && connectionError.None?
      ensures connectingUsers == old(connectingUsers) && refreshes == old(refreshes)
    {
      tab := t;
      connectionError := None;
    }
  }
}
