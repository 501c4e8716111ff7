/** The chat modal between a customer and a provider.  The server is a
    parameter: each handler receives the outcome of every request it makes
    (success with its data, or failure), and the model records the
    requests in the order they are made.  Each awaited handler is modelled
    as running to completion. */
module MessagingModal {
  import opened Wrappers
  import Text

  /** The provider as the modal sees it; an empty `businessName` stands
      for a missing one (all are falsy). */
  datatype ProviderRef = ProviderRef(id: nat, name: string, businessName: string)
  datatype ServiceRef = ServiceRef(id: nat, provider: ProviderRef)

  datatype ChatMessage = ChatMessage(id: nat, senderType: string, text: string)

  /** The requests the modal sends, in the order it sends them. */
  datatype Request =
    | GetMessages(providerId: nat)
    | SendMessage(providerId: nat, text: string, serviceId: nat)
    | DeleteMessage(messageId: nat)
    | DeleteConversation(providerId: nat)

  /** What `getMessages` resolves to (`None` for a `null` body), or its failure. */
  datatype FetchResult = Fetched(data: Option<seq<ChatMessage>>) | FetchFailed

  /** The conversation after a fetch: the data received (`data || []`), or
      the current one when the request fails. */
  function AfterFetch(current: seq<ChatMessage>, result: FetchResult): seq<ChatMessage>
  {
    match result
    case Fetched(data) => data.GetOr([])
    case FetchFailed => current
  }

  const SendFailed := "Failed to send message. Please try again."
  const DeleteFailed := "Failed to delete message."
  const ClearFailed := "Failed to clear conversation."

  /** `service.provider.businessName || service.provider.name`. */
  function ProviderName(p: ProviderRef): (n: string)
    ensures p.businessName != "" ==> n == p.businessName
    ensures p.businessName == "" ==> n == p.name
  {
    if p.businessName != "" then p.businessName else p.name
  }

  /** The header: an invitation before the first message, then a reply
      prompt for the provider or a message prompt for the customer. */
  function HeaderText(hasMessages: bool, isProvider: bool, providerName: string): string
  {
    if hasMessages then (if isProvider then "Reply to Customer" else "Message " + providerName)
    else "Message with " + providerName
  }

  /** Before the first message both sides see the same invitation; the
      customer's headers always name the provider, the provider's reply
      prompt never depends on it. */
  lemma HeaderSpec(isProvider: bool, providerName: string, other: string)
    ensures HeaderText(false, isProvider, providerName) == HeaderText(false, !isProvider, providerName)
    ensures Text.Contains(HeaderText(false, isProvider, providerName), providerName)
    ensures Text.Contains(HeaderText(true, false, providerName), providerName)
    ensures HeaderText(true, true, providerName) == HeaderText(true, true, other)
    ensures HeaderText(true, isProvider, providerName) != HeaderText(false, isProvider, providerName)
  {
    Text.ContainsMiddle("Message with ", providerName, "");
    assert "Message with " + providerName + "" == "Message with " + providerName;
    Text.ContainsMiddle("Message ", providerName, "");
    assert "Message " + providerName + "" == "Message " + providerName;
    if !isProvider {
      var a := HeaderText(true, false, providerName);
      var b := HeaderText(false, false, providerName);
      assert |a| != |b|;
    } else {
      assert HeaderText(true, true, providerName)[0] == 'R';
    }
  }

  /** The send button's `disabled`: blank text or a send in progress. */
  function SendDisabled(text: string, isSending: bool): bool
  {
    Text.Trim(text) == "" || isSending
  }

  /** The send button is enabled exactly when the text has a non-space
      character and no send is running. */
  lemma SendDisabledIff(text: string, isSending: bool)
    ensures SendDisabled(text, isSending) <==> Text.AllSpace(text) || isSending
  {
    Text.TrimEmptyIff(text);
  }

  class ChatModal {
    // The component's props.
    const show: bool
    const service: Option<ServiceRef>
    const isProvider: bool

    // Its state.
    var messages: seq<ChatMessage>
    var newMessage: string
    var isLoading: bool
    var isSending: bool

    // What it did to the outside world: requests sent, alerts shown,
    // and the number of times it called `onClose`.
    var requests: seq<Request>
    var alerts: seq<string>
    var closeCalls: nat

    /** The modal as first rendered. */
    constructor (show: bool, service: Option<ServiceRef>, isProvider: bool)
      ensures this.show == show && this.service == service && this.isProvider == isProvider
      ensures messages == [] && newMessage == "" && !isLoading && !isSending
      ensures requests == [] && alerts == [] && closeCalls == 0
    {
      this.show := show;
      this.service := service;
      this.isProvider := isProvider;
      messages, newMessage, isLoading, isSending := [], "", false, false;
      requests, alerts, closeCalls := [], [], 0;
    }

    /** The header shown, `None` when the modal renders nothing. */
    function Header(): (h: Option<string>)
      reads this
      ensures h.None? <==> !show || service.None?
      ensures h.Some? ==> h.value == HeaderText(messages != [], isProvider, ProviderName(service.value.provider))
    {
      if !show || service.None? then None
      else Some(HeaderText(messages != [], isProvider, ProviderName(service.value.provider)))
    }

    /** The Clear button is offered only over a non-empty conversation. */
    function ShowClear(): bool
      reads this
    {
      messages != []
    }

    /** The text input is locked while a send is in progress. */
    function InputDisabled(): bool
      reads this
    {
      isSending
    }

    /** `onChange` of the input. */
    method Type(text: string)
      modifies this
      ensures newMessage == text
      ensures messages == old(messages) && isLoading == old(isLoading) && isSending == old(isSending)
      ensures requests == old(requests) && alerts == old(alerts) && closeCalls == old(closeCalls)
    {
      newMessage := text;
    }

    /** `fetchMessages`: nothing without a service; otherwise the
        conversation is replaced by the fetched one (`[]` for a `null`
        body) or kept when the request fails, and loading ends. */
    method FetchMessages(result: FetchResult)
      modifies this
      ensures service.None? ==>
        messages == old(messages) && isLoading == old(isLoading) && requests == old(requests)
      ensures service.Some? ==>
        && requests == old(requests) + [GetMessages(service.value.provider.id)]
        && !isLoading
        && messages == AfterFetch(old(messages), result)
      ensures newMessage == old(newMessage) && isSending == old(isSending)
      ensures alerts == old(alerts) && closeCalls == old(closeCalls)
    {
      if service.None? {
        return;
      }
      isLoading := true;
      requests := requests + [GetMessages(service.value.provider.id)];
      match result {
        case Fetched(data) =>
          messages := data.GetOr([]);
        case FetchFailed =>
      }
      isLoading := false;
    }

    /** `handleSendMessage`: blank text or a missing service sends nothing;
        otherwise the text is sent, and on success it is cleared and the
        conversation fetched again, on failure it is kept and an alert is
        shown.  Either way the send ends. */
    method Send(sent: bool, refetch: FetchResult)
      modifies this
      ensures Text.Trim(old(newMessage)) == "" || service.None? ==>
        && messages == old(messages) && newMessage == old(newMessage) && isLoading == old(isLoading)
        && isSending == old(isSending) && requests == old(requests) && alerts == old(alerts)
      ensures Text.Trim(old(newMessage)) != "" && service.Some? ==>
        var call := SendMessage(service.value.provider.id, old(newMessage), service.value.id);
        && !isSending
        && (sent ==>
              && newMessage == "" && SendDisabled(newMessage, isSending)
              && requests == old(requests) + [call, GetMessages(service.value.provider.id)]
              && !isLoading
              && messages == AfterFetch(old(messages), refetch)
              && alerts == old(alerts))
        && (!sent ==>
              && newMessage == old(newMessage) && messages == old(messages) && isLoading == old(isLoading)
              && requests == old(requests) + [call]
              && alerts == old(alerts) + [SendFailed])
      ensures closeCalls == old(closeCalls)
    {
      if Text.Trim(newMessage) == "" || service.None? {
        return;
      }
      isSending := true;
      requests := requests + [SendMessage(service.value.provider.id, newMessage, service.value.id)];
      if sent {
        newMessage := "";
        FetchMessages(refetch);
      } else {
        alerts := alerts + [SendFailed];
      }
      isSending := false;
    }

    /** `handleDeleteMessage`: nothing unless the user confirms; a deleted
        message leads to a fresh fetch, a failed delete to an alert, and
        the local conversation is never edited directly. */
    method Delete(messageId: nat, confirmed: bool, deleted: bool, refetch: FetchResult)
      modifies this
      ensures !confirmed ==>
        messages == old(messages) && isLoading == old(isLoading) && requests == old(requests) && alerts == old(alerts)
      ensures confirmed && !deleted ==>
        && messages == old(messages) && isLoading == old(isLoading)
        && requests == old(requests) + [DeleteMessage(messageId)]
        && alerts == old(alerts) + [DeleteFailed]
      ensures confirmed && deleted && service.None? ==>
        && messages == old(messages) && isLoading == old(isLoading)
        && requests == old(requests) + [DeleteMessage(messageId)] && alerts == old(alerts)
      ensures confirmed && deleted && service.Some? ==>
        && requests == old(requests) + [DeleteMessage(messageId), GetMessages(service.value.provider.id)]
        && !isLoading
        && messages == AfterFetch(old(messages), refetch)
        && alerts == old(alerts)
      ensures newMessage == old(newMessage) && isSending == old(isSending) && closeCalls == old(closeCalls)
    {
      if !confirmed {
        return;
      }
      requests := requests + [DeleteMessage(messageId)];
      if deleted {
        FetchMessages(refetch);
      } else {
        alerts := alerts + [DeleteFailed];
      }
    }

    /** `handleClearConversation`: nothing unless the user confirms; on
        success the conversation is emptied and the modal asks to close,
        on failure (a missing service included, whose `service.provider`
        throws inside the `try`) it alerts and stays as it was. */
    method Clear(confirmed: bool, cleared: bool)
      modifies this
      ensures !confirmed ==>
        messages == old(messages) && requests == old(requests) && alerts == old(alerts) && closeCalls == old(closeCalls)
      ensures confirmed && service.None? ==>
        && messages == old(messages) && requests == old(requests)
        && alerts == old(alerts) + [ClearFailed] && closeCalls == old(closeCalls)
      ensures confirmed && service.Some? && cleared ==>
        && messages == [] && requests == old(requests) + [DeleteConversation(service.value.provider.id)]
        && alerts == old(alerts) && closeCalls == old(closeCalls) + 1
        && !ShowClear() && (show ==> Header() == Some("Message with " + ProviderName(service.value.provider)))
      ensures confirmed && service.Some? && !cleared ==>
        && messages == old(messages) && requests == old(requests) + [DeleteConversation(service.value.provider.id)]
        && alerts == old(alerts) + [ClearFailed] && closeCalls == old(closeCalls)
      ensures newMessage == old(newMessage) && isLoading == old(isLoading) && isSending == old(isSending)
    {
      if !confirmed {
        return;
      }
      if service.None? {
        alerts := alerts + [ClearFailed];
        return;
      }
      requests := requests + [DeleteConversation(service.value.provider.id)];
      if cleared {
        messages := [];
        closeCalls := closeCalls + 1;
      } else {
        alerts := alerts + [ClearFailed];
      }
    }

    /** While the modal is shown, the Clear button is there exactly when
        the header is no longer the first-message invitation. */
    lemma ClearShownIff()
      requires show && service.Some?
      ensures ShowClear() <==>
        Header() != Some(HeaderText(false, isProvider, ProviderName(service.value.provider)))
    {
      HeaderSpec(isProvider, ProviderName(service.value.provider), "");
    }
  }
}
