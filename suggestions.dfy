/** The suggestions section of a guild record and the `/suggestion` subcommands
    (commands/suggestions/suggestion.js). */
module Suggestions {
  import opened Common

  datatype Status = Pending | Approved | Rejected | Implemented | Considering

  /** The four staff verdicts. Reject carries a "reason", the others a "comment". */
  datatype Verdict = Approve | Reject | Implement | Consider

  function StatusOf(v: Verdict): (s: Status)
    ensures s != Pending
  {
    match v
    case Approve => Approved
    case Reject => Rejected
    case Implement => Implemented
    case Consider => Considering
  }

  const NoComment: string := "No comment provided."
  const NoReason: string := "No reason provided."

  /** `getString("comment") || "No comment provided."`, or the reason default for a rejection. */
  function NoteOrDefault(v: Verdict, note: Option<string>): (n: string)
    ensures note.Some? && note.value != "" ==> n == note.value
    ensures (note.None? || note.value == "") && v == Reject ==> n == NoReason
    ensures (note.None? || note.value == "") && v != Reject ==> n == NoComment
  {
    if note.Some? && note.value != "" then note.value
    else if v == Reject then NoReason
    else NoComment
  }

  /** A stored suggestion; the comment and resolution fields appear with the first verdict. */
  datatype Suggestion = Suggestion(
    id: string, messageId: string, title: string, description: string,
    status: Status, createdAt: int, createdBy: string,
    upvotes: seq<string>, downvotes: seq<string>,
    comment: Option<string>, resolvedBy: Option<string>, resolvedAt: Option<int>)

  function NewSuggestion(id: string, messageId: string, title: string, description: string,
                         author: string, now: int): (s: Suggestion)
    ensures s.id == id && s.messageId == messageId && s.title == title && s.description == description
    ensures s.status == Pending && s.upvotes == [] && s.downvotes == []
    ensures s.createdBy == author && s.createdAt == now
    ensures s.comment.None? && s.resolvedBy.None? && s.resolvedAt.None?
  {
    Suggestion(id, messageId, title, description, Pending, now, author, [], [], None, None, None)
  }

  /** The in-place update a verdict performs on the found suggestion. */
  function Resolve(s: Suggestion, v: Verdict, note: string, author: string, now: int): (t: Suggestion)
    ensures t.status == StatusOf(v) && t.comment == Some(note)
    ensures t.resolvedBy == Some(author) && t.resolvedAt == Some(now)
    ensures t.(status := s.status, comment := s.comment, resolvedBy := s.resolvedBy, resolvedAt := s.resolvedAt) == s
  {
    s.(status := StatusOf(v), comment := Some(note), resolvedBy := Some(author), resolvedAt := Some(now))
  }

  predicate HasId(id: string, s: Suggestion) { s.id == id }

  datatype Reply =
    | Done
    | NotEnabled        // create while the system is off
    | ChannelMissing    // the suggestion channel could not be fetched
    | UnknownId         // no suggestion with that id
    | EditFailed        // the verdict was recorded but the message could not be edited

  class Settings {
    var enabled: bool
    var channelId: Option<string>
    var suggestions: seq<Suggestion>

    /** The state a freshly created section is in. */
    ghost predicate Initial()
      reads this
    {
      !enabled && channelId == None && suggestions == []
    }

    constructor ()
      ensures Initial()
    {
      enabled := false;
      channelId := None;
      suggestions := [];
    }

    method Setup(channel: string)
      modifies this`enabled, this`channelId
      ensures enabled && channelId == Some(channel)
    {
      enabled := true;
      channelId := Some(channel);
    }

    method Disable()
      modifies this`enabled
      ensures !enabled
    {
      enabled := false;
    }

    /** A new pending suggestion is appended once its message was posted.
        `id` is the generated id, `messageId` the posted message, `channelFound`
        whether the suggestion channel could be fetched. */
    method Create(id: string, messageId: string, title: string, description: string,
                  author: string, now: int, channelFound: bool) returns (r: Reply)
      modifies this`suggestions
      ensures r == (if !old(enabled) then NotEnabled else if !channelFound then ChannelMissing else Done)
      ensures suggestions == if r == Done then old(suggestions) + [NewSuggestion(id, messageId, title, description, author, now)]
                             else old(suggestions)
    {
      if !enabled {
        return NotEnabled;
      }
      if !channelFound {
        return ChannelMissing;
      }
      suggestions := suggestions + [NewSuggestion(id, messageId, title, description, author, now)];
      return Done;
    }

    /** Any verdict subcommand. The first suggestion with the id is resolved in memory
        before the message edit is attempted, so it stays resolved when `editOk` is false. */
    method Review(v: Verdict, id: string, note: Option<string>, author: string, now: int, editOk: bool)
      returns (r: Reply)
      modifies this`suggestions
      ensures var i := FindIndex(old(suggestions), s => HasId(id, s));
        && (i == -1 ==> r == UnknownId && suggestions == old(suggestions))
        && (i != -1 ==> r == (if editOk then Done else EditFailed)
                        && suggestions == old(suggestions)[i := Resolve(old(suggestions)[i], v, NoteOrDefault(v, note), author, now)])
    {
      var i := FindIndex(suggestions, s => HasId(id, s));
      if i == -1 {
        return UnknownId;
      }
      suggestions := suggestions[i := Resolve(suggestions[i], v, NoteOrDefault(v, note), author, now)];
      r := if editOk then Done else EditFailed;
    }
  }
}
