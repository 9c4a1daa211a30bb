/** The verification section of a guild record, the `/verify` subcommands
    (commands/moderation/verify.js) and the verify button and answer form handled
    by events/interactionCreate.js. */
module Verification {
  import opened Common

  /** The choices of the type option. */
  datatype Kind = ButtonKind | ReactionKind | CaptchaKind | QuestionKind

  const DefaultTitle: string := "Verification Required"
  const DefaultDescription: string := "Please verify yourself to access the server."

  datatype Reply =
    | Done
    | NotEnabled       // the system is missing or disabled
    | RoleNotEditable  // setup with a role the bot cannot assign
    | MemberMissing    // manual verification of someone not in the guild
    | RoleMissing      // the configured role could not be fetched
    | WrongAnswer      // the submitted answer does not match

  class Settings {
    var enabled: bool
    var channelId: Option<string>
    var roleId: Option<string>
    var kind: Kind
    var title: string
    var description: string
    var question: Option<string>
    var answer: Option<string>
    var messageId: Option<string>

    /** The stored answer is in lower case, as the question subcommand folds it. */
    ghost predicate Valid()
      reads this
    {
      answer.Some? ==> IsLowerCase(answer.value)
    }

    /** The state a freshly created section is in. */
    ghost predicate Initial()
      reads this
    {
      && !enabled && channelId == None && roleId == None && kind == ButtonKind
      && title == DefaultTitle && description == DefaultDescription
      && question == None && answer == None && messageId == None
    }

    constructor ()
      ensures Initial() && Valid()
    {
      enabled := false;
      channelId := None;
      roleId := None;
      kind := ButtonKind;
      title := DefaultTitle;
      description := DefaultDescription;
      question := None;
      answer := None;
      messageId := None;
    }

    /** `/verify setup`: refused for a role the bot cannot assign; otherwise the
        posted message (`message`) and the options are recorded. The question and
        answer are kept. */
    method Setup(channel: string, role: string, editable: bool, titleOption: Option<string>,
                 descriptionOption: Option<string>, kindOption: Option<Kind>, message: string)
      returns (r: Reply)
      modifies this`enabled, this`channelId, this`roleId, this`kind, this`title, this`description, this`messageId
      ensures r == (if editable then Done else RoleNotEditable)
      ensures r == Done ==>
        && enabled && channelId == Some(channel) && roleId == Some(role)
        && kind == (if kindOption.Some? then kindOption.value else ButtonKind)
        && title == OrDefault(titleOption, DefaultTitle)
        && description == OrDefault(descriptionOption, DefaultDescription)
        && messageId == Some(message)
      ensures r != Done ==>
        && enabled == old(enabled) && channelId == old(channelId) && roleId == old(roleId)
        && kind == old(kind) && title == old(title) && description == old(description)
        && messageId == old(messageId)
    {
      if !editable {
        return RoleNotEditable;
      }
      enabled := true;
      channelId := Some(channel);
      roleId := Some(role);
      kind := if kindOption.Some? then kindOption.value else ButtonKind;
      title := OrDefault(titleOption, DefaultTitle);
      description := OrDefault(descriptionOption, DefaultDescription);
      messageId := Some(message);
      return Done;
    }

    /** `/verify disable`: refused unless enabled; the message deletion is best effort. */
    method Disable() returns (r: Reply)
      modifies this`enabled
      ensures r == (if old(enabled) then Done else NotEnabled)
      ensures !enabled
    {
      if !enabled {
        return NotEnabled;
      }
      enabled := false;
      return Done;
    }

    /** `/verify question`: stores the question, the answer in lower case, and
        switches the kind to question. */
    method SetQuestion(q: string, a: string) returns (r: Reply)
      modifies this`question, this`answer, this`kind
      ensures r == (if old(enabled) then Done else NotEnabled)
      ensures r == Done ==> question == Some(q) && answer == Some(ToLower(a)) && kind == QuestionKind
      ensures r != Done ==> question == old(question) && answer == old(answer) && kind == old(kind)
      ensures old(Valid()) ==> Valid()
    {
      if !enabled {
        return NotEnabled;
      }
      question := Some(q);
      answer := Some(ToLower(a));
      kind := QuestionKind;
      return Done;
    }

    /** The guard chain of `/verify manual` before the role is given. */
    function ManualCheck(memberFound: bool, roleFound: bool): (r: Reply)
      reads this
      ensures r == Done <==> enabled && memberFound && roleFound
      ensures !enabled ==> r == NotEnabled
      ensures enabled && !memberFound ==> r == MemberMissing
    {
      if !enabled then NotEnabled
      else if !memberFound then MemberMissing
      else if !roleFound then RoleMissing
      else Done
    }
  }

  /** The `verify_button` button. */
  function ButtonCheck(v: Settings?, roleFound: bool): (r: Reply)
    reads v
    ensures r == Done <==> v != null && v.enabled && roleFound
    ensures r != Done ==> r == (if v == null || !v.enabled then NotEnabled else RoleMissing)
  {
    if v == null || !v.enabled then NotEnabled
    else if !roleFound then RoleMissing
    else Done
  }

  /** The answer form: the submitted text, lower-cased, must equal the stored answer. */
  function AnswerCheck(v: Settings?, submitted: string, roleFound: bool): (r: Reply)
    reads v
    ensures r == Done <==> v != null && v.enabled && v.answer == Some(ToLower(submitted)) && roleFound
    ensures v != null && v.enabled && v.answer != Some(ToLower(submitted)) ==> r == WrongAnswer
    ensures v == null || !v.enabled ==> r == NotEnabled
  {
    if v == null || !v.enabled then NotEnabled
    else if v.answer != Some(ToLower(submitted)) then WrongAnswer
    else if !roleFound then RoleMissing
    else Done
  }

  /** Once a question was set with answer `a`, a submission passes the answer check
      exactly when it equals `a` ignoring case. */
  lemma AnswerIgnoresCase(v: Settings, a: string, submitted: string)
    requires v.enabled && v.answer == Some(ToLower(a))
    ensures AnswerCheck(v, submitted, true) == Done <==> ToLower(submitted) == ToLower(a)
  {
  }
}
