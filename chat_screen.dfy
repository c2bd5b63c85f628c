/** The chat with one volunteer: a local message list, the input box, sending on Enter or
    the button, and the canned reply that arrives two seconds after each send. */
module ChatScreen {
  import opened Wrappers
  import opened Strings

  datatype Sender = Me | Other

  /** One bubble; `senderName` is set on the volunteer's messages only. The time label is
      whatever the clock printed, taken here as a parameter. */
  datatype Message = Message(id: int, sender: Sender, senderName: Option<string>, text: string, time: string)

  /** The volunteer passed in the navigation state by the community screen. */
  datatype Volunteer = Volunteer(name: string, initials: string, status: string)

  /** Used when the screen is opened without navigation state. */
  const DefaultVolunteer: Volunteer := Volunteer("Ananya Rao", "AR", "available")

  const ReplyText: string := "Got it! I'm on my way. Will update you shortly."

  const InitialMessages: seq<Message> := [
    Message(1, Other, Some("Ananya Rao"),
      "Hello! I've picked up your SOS alert for the injured dog. I am currently 2km away.", "10:24 AM"),
    Message(2, Me, None,
      "Thank you so much. I'm waiting near the main gate. The dog seems to have a leg injury.", "10:26 AM"),
    Message(3, Other, Some("Ananya Rao"),
      "Understood. Please try to keep people away so the animal doesn't get stressed. I'll be there in 10 mins.", "10:27 AM")
  ]

  /** `location.state?.volunteer || default`. */
  function ChosenVolunteer(fromState: Option<Volunteer>): (v: Volunteer)
    ensures fromState.Some? ==> v == fromState.value
    ensures fromState.None? ==> v == DefaultVolunteer && v.name == "Ananya Rao"
  {
    fromState.GetOr(DefaultVolunteer)
  }

  /** The send button's `disabled`: exactly when the input is empty after trimming, that
      is when it holds only whitespace. */
  function SendDisabled(input: string): (disabled: bool)
    ensures disabled <==> Trim(input) == ""
  {
    AllWhitespace(input)
  }

  /** The message a send appends: numbered one past the current length, from "me", with
      the trimmed input as text. */
  function OutgoingMessage(messages: seq<Message>, input: string, time: string): (m: Message)
    requires !AllWhitespace(input)
    ensures m.id == |messages| + 1 && m.sender == Me && m.senderName.None?
    ensures m.text == Trim(input) && m.time == time
    ensures m.text != [] && !IsJsWhitespace(m.text[0]) && !IsJsWhitespace(m.text[|m.text| - 1])
  {
    Message(|messages| + 1, Me, None, Trim(input), time)
  }

  /** The id the delayed reply of a send will carry: the length when the send happened,
      plus two. */
  function ReplyId(messagesAtSend: seq<Message>): int {
    |messagesAtSend| + 2
  }

  /** The ids are taken from the length, not from the ids in the list: a second send made
      before the first reply arrives gets the id that reply will carry. */
  lemma QuickSecondSendSharesReplyId(messages: seq<Message>, first: string, second: string, t1: string, t2: string)
    requires !AllWhitespace(first) && !AllWhitespace(second)
    ensures var afterFirst := messages + [OutgoingMessage(messages, first, t1)];
      OutgoingMessage(afterFirst, second, t2).id == ReplyId(messages)
  {
  }

  /** Enter without Shift sends; every other key, and Enter with Shift, does not. */
  predicate KeySends(key: string, shiftKey: bool) {
    key == "Enter" && !shiftKey
  }

  class Screen {
    var messages: seq<Message>
    var newMessage: string
    /** The ids of the replies whose two-second timers are still running, oldest first. */
    var pendingReplies: seq<int>
    const volunteer: Volunteer

    constructor (fromState: Option<Volunteer>)
      ensures messages == InitialMessages && newMessage == "" && pendingReplies == []
      ensures volunteer == ChosenVolunteer(fromState)
    {
      messages := InitialMessages;
      newMessage := "";
      pendingReplies := [];
      volunteer := ChosenVolunteer(fromState);
    }

    /** The input's `onChange`. */
    method Type(value: string)
      modifies this
      ensures newMessage == value
      ensures messages == old(messages) && pendingReplies == old(pendingReplies)
    {
      newMessage := value;
    }

    /** `handleSendMessage` at clock label `time`: a blank input changes nothing; otherwise
        the trimmed text is appended as the last message, earlier messages stay as they
        were, the input is cleared and a reply is scheduled. */
    method SendMessage(time: string) returns (sent: bool)
      modifies this
      ensures sent <==> !SendDisabled(old(newMessage))
      ensures !sent ==> (messages == old(messages) && newMessage == old(newMessage)
                         && pendingReplies == old(pendingReplies))
      ensures sent ==> (messages == old(messages) + [OutgoingMessage(old(messages), old(newMessage), time)]
                        && newMessage == ""
                        && pendingReplies == old(pendingReplies) + [ReplyId(old(messages))])
    {
      if SendDisabled(newMessage) {
        sent := false;
        return;
      }
      var outgoing := OutgoingMessage(messages, newMessage, time);
      pendingReplies := pendingReplies + [ReplyId(messages)];
      messages := messages + [outgoing];
      newMessage := "";
      sent := true;
    }

    /** The oldest reply timer fires at clock label `time`: the reply goes after whatever
        the list holds by then. */
    method ReplyArrives(time: string)
      requires pendingReplies != []
      modifies this
      ensures messages == old(messages) + [Message(old(pendingReplies)[0], Other, Some(volunteer.name), ReplyText, time)]
      ensures pendingReplies == old(pendingReplies)[1..] && newMessage == old(newMessage)
    {
      messages := messages + [Message(pendingReplies[0], Other, Some(volunteer.name), ReplyText, time)];
      pendingReplies := pendingReplies[1..];
    }

    /** `handleKeyPress`. */
    method KeyPress(key: string, shiftKey: bool, time: string) returns (sent: bool)
      modifies this
      ensures sent <==> KeySends(key, shiftKey) && !SendDisabled(old(newMessage))
      ensures !sent ==> (messages == old(messages) && newMessage == old(newMessage)
                         && pendingReplies == old(pendingReplies))
      ensures sent ==> (messages == old(messages) + [OutgoingMessage(old(messages), old(newMessage), time)]
                        && newMessage == ""
                        && pendingReplies == old(pendingReplies) + [ReplyId(old(messages))])
    {
      sent := false;
      if KeySends(key, shiftKey) {
        sent := SendMessage(time);
      }
    }
  }
}
