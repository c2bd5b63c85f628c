/** The community screen: the volunteer list, each volunteer's status colour, and the
    message button that opens a chat with them. */
module CommunityScreen {
  import opened Wrappers
  import opened Strings
  import ChatScreen

  /** A listed volunteer; avatar, background and status text only decorate the card. */
  datatype ListedVolunteer = ListedVolunteer(id: int, name: string, status: string)

  const Volunteers: seq<ListedVolunteer> := [
    ListedVolunteer(1, "Ananya Rao", "available"),
    ListedVolunteer(2, "Arjun Nair", "busy"),
    ListedVolunteer(3, "Meera Iyer", "available"),
    ListedVolunteer(4, "Vikram Singh", "offline")
  ]

  /** `getStatusColor`: green when available, orange when busy, grey otherwise. */
  function StatusColor(status: string): (color: string)
    ensures status == "available" <==> color == "#4CAF50"
    ensures status == "busy" <==> color == "#FF9800"
    ensures status != "available" && status != "busy" <==> color == "#9E9E9E"
  {
    match status
    case "available" => "#4CAF50"
    case "busy" => "#FF9800"
    case "offline" => "#9E9E9E"
    case _ => "#9E9E9E"
  }

  /** The message button is disabled exactly for offline volunteers. */
  predicate MessageDisabled(v: ListedVolunteer) {
    v.status == "offline"
  }

  /** The volunteer record `handleMessage` passes to the chat: the name and status as
      they are, and the initials of the name. */
  function ChatVolunteer(v: ListedVolunteer): (c: ChatScreen.Volunteer)
    ensures c.name == v.name && c.status == v.status
    ensures c.initials == WordStarts(v.name, true)
    ensures c.initials == "" <==> forall i :: 0 <= i < |v.name| ==> v.name[i] == ' '
  {
    InitialsAreWordStarts(v.name);
    InitialsEmptyIff(v.name);
    ChatScreen.Volunteer(v.name, Initials(v.name), v.status)
  }

  /** `handleMessage`: opens the chat, which then talks to this volunteer. */
  method HandleMessage(v: ListedVolunteer) returns (route: string, state: ChatScreen.Volunteer)
    ensures route == "/chat" && state == ChatVolunteer(v)
    ensures ChatScreen.ChosenVolunteer(Some(state)).name == v.name
  {
    route := "/chat";
    state := ChatVolunteer(v);
  }

  /** "Ananya Rao" becomes "AR". */
  lemma InitialsExample()
    ensures Initials("Ananya Rao") == "AR"
  {
    TwoWordInitials("Ananya", "Rao");
    assert "Ananya" + " " + "Rao" == "Ananya Rao";
  }

  /** Of the listed volunteers only Vikram Singh cannot be messaged. */
  lemma OnlyOfflineVolunteerIsDisabled()
    ensures forall i :: 0 <= i < |Volunteers| ==> (MessageDisabled(Volunteers[i]) <==> i == 3)
    ensures StatusColor(Volunteers[3].status) == "#9E9E9E"
  {
  }
}
