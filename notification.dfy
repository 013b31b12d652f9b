/**
 * Push-notification dispatch. The token store, the push provider and the
 * notification store are abstract: a map from e-mail to a possibly-null
 * token, the provider's reply passed in as a parameter, and one ordered log
 * of provider calls and saved notification records.
 */
module Notification {
  import opened Wrappers
  import opened Exceptions
  import opened AuctionDomain

  /** The notification types; only two of them are singled out by the dispatch logic. */
  datatype NotificationKind = CanceledPurchaseTrading | PurchaseWinning | OtherKind(name: string)

  /** A notification type with the title and content text it carries. */
  datatype NotificationType = NotificationType(kind: NotificationKind, title: string, content: string)

  /** A provider data message: its `title` and `content` entries and the device token it is addressed to. */
  datatype PushMessage = PushMessage(title: string, content: string, token: string)

  /** The record `saveNotification` persists. */
  datatype NotificationRecord = NotificationRecord(
    senderEmail: string,
    receiverEmail: string,
    content: string,
    notificationType: NotificationType,
    auction: Auction)

  /** The provider's answer to one send: accepted, or rejected with the exception's message. */
  datatype ProviderReply = Accepted | Rejected(message: string)

  /** An externally visible step: a message handed to the provider, or a record saved. */
  datatype Effect = ProviderCall(message: PushMessage) | Saved(record: NotificationRecord)

  datatype SaveFcmTokenRequest = SaveFcmTokenRequest(fcmToken: Option<string>)

  const TokenNotFound := NotFoundException(Code(NotFoundFcmToken))

  /** The two types whose message leaves out the sender's nickname. */
  predicate SuppressesNickname(t: NotificationType) {
    t.kind == CanceledPurchaseTrading || t.kind == PurchaseWinning
  }

  /** A registered, non-null token for `email`. */
  predicate HasToken(tokens: map<string, Option<string>>, email: string) {
    email in tokens && tokens[email].Some?
  }

  /** The outcome of one `sendMessage` call and the effects it performed, in order. */
  datatype Dispatch = Dispatch(outcome: Outcome<Exception>, effects: seq<Effect>)

  /**
   * What `sendMessage` is meant to do, as a decision table: no token means
   * not-found and nothing else; otherwise one provider call, then a saved
   * record only if the provider accepted.
   */
  function Dispatched(
    tokens: map<string, Option<string>>, senderEmail: string, senderNickname: string,
    receiverEmail: string, t: NotificationType, auction: Auction, reply: ProviderReply): (d: Dispatch)
    ensures d.outcome.Pass? <==> HasToken(tokens, receiverEmail) && reply.Accepted?
    ensures !HasToken(tokens, receiverEmail) ==> d.outcome == Fail(TokenNotFound) && d.effects == []
    ensures HasToken(tokens, receiverEmail) && reply.Rejected? ==>
      d.outcome == Fail(ValidationException(Detail(reply.message))) && |d.effects| == 1
    ensures forall i :: 0 <= i < |d.effects| && d.effects[i].Saved? ==>
      d.outcome.Pass? && i == 1 && d.effects[0].ProviderCall?
    ensures forall i :: 0 <= i < |d.effects| && d.effects[i].ProviderCall? ==>
      i == 0 && d.effects[i].message.token == tokens[receiverEmail].value && d.effects[i].message.title == t.title
  {
    if !HasToken(tokens, receiverEmail) then
      Dispatch(Fail(TokenNotFound), [])
    else
      var shown := if SuppressesNickname(t) then "" else senderNickname;
      var call := ProviderCall(PushMessage(t.title, shown + t.content, tokens[receiverEmail].value));
      match reply
      case Rejected(message) =>
        Dispatch(Fail(ValidationException(Detail(message))), [call])
      case Accepted =>
        Dispatch(Pass, [call, Saved(NotificationRecord(senderEmail, receiverEmail, t.content, t, auction))])
  }

  /** For the two suppressing types the nickname passed in makes no difference at all. */
  lemma SuppressedTypesIgnoreNickname(
    tokens: map<string, Option<string>>, senderEmail: string, nickname1: string, nickname2: string,
    receiverEmail: string, t: NotificationType, auction: Auction, reply: ProviderReply)
    requires SuppressesNickname(t)
    ensures Dispatched(tokens, senderEmail, nickname1, receiverEmail, t, auction, reply)
         == Dispatched(tokens, senderEmail, nickname2, receiverEmail, t, auction, reply)
    ensures HasToken(tokens, receiverEmail) ==>
      Dispatched(tokens, senderEmail, nickname1, receiverEmail, t, auction, reply).effects[0].message.content == t.content
  {}

  /**
   * For every other type the message content is the nickname followed by the
   * type's content, so two different nicknames give two different messages.
   */
  lemma OtherTypesCarryNickname(
    tokens: map<string, Option<string>>, senderEmail: string, nickname1: string, nickname2: string,
    receiverEmail: string, t: NotificationType, auction: Auction, reply: ProviderReply)
    requires !SuppressesNickname(t) && HasToken(tokens, receiverEmail)
    ensures Dispatched(tokens, senderEmail, nickname1, receiverEmail, t, auction, reply).effects[0]
         == ProviderCall(PushMessage(t.title, nickname1 + t.content, tokens[receiverEmail].value))
    ensures nickname1 != nickname2 ==>
      Dispatched(tokens, senderEmail, nickname1, receiverEmail, t, auction, reply).effects[0]
      != Dispatched(tokens, senderEmail, nickname2, receiverEmail, t, auction, reply).effects[0]
  {
    if nickname1 != nickname2 {
      var content1, content2 := nickname1 + t.content, nickname2 + t.content;
      if |nickname1| == |nickname2| {
        var k :| 0 <= k < |nickname1| && nickname1[k] != nickname2[k];
        assert content1[k] != content2[k];
      } else {
        assert |content1| != |content2|;
      }
    }
  }

  /**
   * A successful send saves exactly one record, after the provider call, with
   * the sender, the receiver, the type's content without any nickname, the
   * type and the auction.
   */
  lemma SuccessSavesOneRecord(
    tokens: map<string, Option<string>>, senderEmail: string, senderNickname: string,
    receiverEmail: string, t: NotificationType, auction: Auction)
    requires HasToken(tokens, receiverEmail)
    ensures var d := Dispatched(tokens, senderEmail, senderNickname, receiverEmail, t, auction, Accepted);
      && d.outcome == Pass
      && |d.effects| == 2 && d.effects[0].ProviderCall?
      && d.effects[1] == Saved(NotificationRecord(senderEmail, receiverEmail, t.content, t, auction))
  {}

  /** A registered token is the one the next message is addressed to; a deleted one means not-found. */
  lemma TokenLifecycle(
    tokens: map<string, Option<string>>, email: string, token: string, senderEmail: string,
    senderNickname: string, t: NotificationType, auction: Auction, reply: ProviderReply)
    ensures Dispatched(tokens[email := Some(token)], senderEmail, senderNickname, email, t, auction, reply)
      .effects[0].message.token == token
    ensures Dispatched(tokens - {email}, senderEmail, senderNickname, email, t, auction, reply)
      == Dispatch(Fail(TokenNotFound), [])
    ensures Dispatched(tokens[email := None], senderEmail, senderNickname, email, t, auction, reply)
      == Dispatch(Fail(TokenNotFound), [])
  {}

  /** `FCMService` over its three collaborators. */
  class FcmService {
    /** The token repository: e-mail to registered token, which may be null. */
    var tokens: map<string, Option<string>>
    /** Everything handed to the provider and everything saved, in order. */
    var effects: seq<Effect>

    constructor (tokens: map<string, Option<string>>)
      ensures this.tokens == tokens && effects == []
    {
      this.tokens := tokens;
      effects := [];
    }

    /**
     * Checks the receiver's token key, blanks the nickname for the two
     * suppressing types, reads the token, sends, and saves a record only after
     * the provider accepted. `reply` is the provider's answer to the send.
     */
    method SendMessage(
      senderEmail: string, senderNickname: string, receiverEmail: string,
      notificationType: NotificationType, auction: Auction, reply: ProviderReply)
      returns (r: Outcome<Exception>)
      modifies this`effects
      ensures var d := Dispatched(tokens, senderEmail, senderNickname, receiverEmail, notificationType, auction, reply);
        r == d.outcome && effects == old(effects) + d.effects
    {
      if receiverEmail !in tokens {
        return Fail(TokenNotFound);
      }
      var nickname := senderNickname;
      if SuppressesNickname(notificationType) {
        nickname := "";
      }
      var fcmToken := GetFcmToken(receiverEmail);
      if fcmToken.Err? {
        return Fail(fcmToken.error);
      }
      var message := PushMessage(notificationType.title, nickname + notificationType.content, fcmToken.value);
      var sent := Send(message, reply);
      if sent.Fail? {
        return sent;
      }
      effects := effects + [Saved(NotificationRecord(
        senderEmail, receiverEmail, notificationType.content, notificationType, auction))];
      return Pass;
    }

    /** Hands `message` to the provider; a rejection becomes a validation error carrying its message. */
    method Send(message: PushMessage, reply: ProviderReply) returns (r: Outcome<Exception>)
      modifies this`effects
      ensures effects == old(effects) + [ProviderCall(message)]
      ensures r.Pass? <==> reply.Accepted?
      ensures reply.Rejected? ==> r == Fail(ValidationException(Detail(reply.message)))
    {
      effects := effects + [ProviderCall(message)];
      if reply.Rejected? {
        return Fail(ValidationException(Detail(reply.message)));
      }
      return Pass;
    }

    /** The receiver's token, or not-found when the key is missing or its token is null. */
    method GetFcmToken(receiverEmail: string) returns (r: Result<string, Exception>)
      ensures r.Ok? <==> HasToken(tokens, receiverEmail)
      ensures r.Ok? ==> r.value == tokens[receiverEmail].value
      ensures r.Err? ==> r.error == TokenNotFound
    {
      var fcmToken := if receiverEmail in tokens then tokens[receiverEmail] else None;
      if fcmToken.None? {
        return Err(TokenNotFound);
      }
      return Ok(fcmToken.value);
    }

    /** Registers (or replaces) the user's token. */
    method SaveFcmToken(userEmail: string, request: SaveFcmTokenRequest)
      modifies this`tokens
      ensures tokens == old(tokens)[userEmail := request.fcmToken]
    {
      tokens := tokens[userEmail := request.fcmToken];
    }

    /** Forgets the user's token; nothing happens if there is none. */
    method DeleteFcmToken(email: string)
      modifies this`tokens
      ensures tokens == old(tokens) - {email}
    {
      tokens := tokens - {email};
    }
  }
}
