/** The welcomeImage section of a guild record, the `/welcomeimage` subcommands
    and the text drawn on the welcome card (commands/welcome/welcomeimage.js). */
module WelcomeImage {
  import opened Common

  /** The choices of the background options. */
  datatype Background = DefaultBackground | Blur | Dark | Light | Nature | Abstract

  const DefaultMessage: string := "Welcome to {server}, {user}!"
  const DefaultTextColour: string := "#FFFFFF"

  datatype Reply = Done | NotEnabled | MemberMissing | InvalidColour

  class Settings {
    var enabled: bool
    var channelId: Option<string>
    var background: Background
    var message: string
    var textColour: string

    /** The text colour is always a valid hex colour. */
    ghost predicate Valid()
      reads this
    {
      IsHexColour(textColour)
    }

    /** The state a freshly created section is in. */
    ghost predicate Initial()
      reads this
    {
      && !enabled && channelId == None && background == DefaultBackground
      && message == DefaultMessage && textColour == DefaultTextColour
    }

    constructor ()
      ensures Initial() && Valid()
    {
      enabled := false;
      channelId := None;
      background := DefaultBackground;
      message := DefaultMessage;
      textColour := DefaultTextColour;
    }

    /** `message || default`; the text colour is kept. */
    method Setup(channel: string, bg: Background, messageOption: Option<string>)
      modifies this`enabled, this`channelId, this`background, this`message
      ensures enabled && channelId == Some(channel) && background == bg
      ensures message == if messageOption.Some? && messageOption.value != "" then messageOption.value else DefaultMessage
    {
      enabled := true;
      channelId := Some(channel);
      background := bg;
      message := if messageOption.Some? && messageOption.value != "" then messageOption.value else DefaultMessage;
    }

    method Disable()
      modifies this`enabled
      ensures !enabled
    {
      enabled := false;
    }

    /** The guard of `/welcomeimage test` before the card is drawn. */
    function TestCheck(memberFound: bool): (r: Reply)
      reads this
      ensures r == Done <==> enabled && memberFound
      ensures !enabled ==> r == NotEnabled
    {
      if !enabled then NotEnabled else if !memberFound then MemberMissing else Done
    }

    method SetBackground(bg: Background) returns (r: Reply)
      modifies this`background
      ensures r == (if old(enabled) then Done else NotEnabled)
      ensures background == if r == Done then bg else old(background)
    {
      if !enabled {
        return NotEnabled;
      }
      background := bg;
      return Done;
    }

    method SetMessage(text: string) returns (r: Reply)
      modifies this`message
      ensures r == (if old(enabled) then Done else NotEnabled)
      ensures message == if r == Done then text else old(message)
    {
      if !enabled {
        return NotEnabled;
      }
      message := text;
      return Done;
    }

    /** `/welcomeimage color`: only a `#rrggbb` colour (either case) is stored. */
    method SetColour(hex: string) returns (r: Reply)
      modifies this`textColour
      ensures r == (if !old(enabled) then NotEnabled else if !IsHexColour(hex) then InvalidColour else Done)
      ensures textColour == if r == Done then hex else old(textColour)
      ensures old(Valid()) ==> Valid()
    {
      if !enabled {
        return NotEnabled;
      }
      if !IsHexColour(hex) {
        return InvalidColour;
      }
      textColour := hex;
      return Done;
    }
  }

  /** The card text: the first "{user}" becomes the user name, then the first
      "{server}" of that result becomes the guild name. */
  function WelcomeText(template: string, user: string, server: string): (r: string)
    ensures !Contains(template, "{user}") && !Contains(template, "{server}") ==> r == template
  {
    ReplaceFirst(ReplaceFirst(template, "{user}", user), "{server}", server)
  }

  /** The first replacement on the default template: the user name, with its
      "$" patterns expanded, takes the place of "{user}". */
  lemma DefaultUserStep(user: string)
    ensures ReplaceFirst(DefaultMessage, "{user}", user) ==
            "Welcome to {server}, " + Substitution(user, "{user}", "Welcome to {server}, ", "!") + "!"
  {
    UserPlaceholderAt();
    assert DefaultMessage == "Welcome to {server}, " + "{user}" + "!";
    ReplaceFirstBetween("Welcome to {server}, ", "{user}", "!", user);
  }

  /** "{user}" first occurs in the default template at position 21. */
  lemma UserPlaceholderAt()
    ensures OccursAt(DefaultMessage, "{user}", 21)
    ensures forall j :: 0 <= j < 21 ==> !OccursAt(DefaultMessage, "{user}", j)
  {
    var t := DefaultMessage;
    forall j | 0 <= j < 21 ensures !OccursAt(t, "{user}", j) {
      if j == 11 {
        assert t[j + 1] != "{user}"[1];
      } else {
        assert t[j] != "{user}"[0];
      }
    }
    assert t[21..27] == "{user}";
  }

  /** The second replacement: "{server}" first occurs before the user name. */
  lemma DefaultServerStep(user: string, server: string)
    ensures ReplaceFirst("Welcome to {server}, " + user + "!", "{server}", server)
            == "Welcome to " + Substitution(server, "{server}", "Welcome to ", ", " + user + "!") + ", " + user + "!"
  {
    var pre := "Welcome to ";
    var post := ", " + user + "!";
    assert "Welcome to {server}, " + user + "!" == pre + "{server}" + post;
    assert '{' !in pre;
    NoOccurrenceInPrefix(pre, "{server}" + post, "{server}");
    assert pre + "{server}" + post == pre + ("{server}" + post);
    ReplaceFirstBetween(pre, "{server}", post, server);
  }

  /** With the default template the user name and then the guild name land in
      their places, each with its "$" patterns expanded. */
  lemma DefaultWelcomeText(user: string, server: string)
    ensures var u := Substitution(user, "{user}", "Welcome to {server}, ", "!");
      WelcomeText(DefaultMessage, user, server) ==
        "Welcome to " + Substitution(server, "{server}", "Welcome to ", ", " + u + "!") + ", " + u + "!"
  {
    DefaultUserStep(user);
    DefaultServerStep(Substitution(user, "{user}", "Welcome to {server}, ", "!"), server);
  }

  /** Names without "$" appear on the default card exactly as they are. */
  lemma DefaultWelcomePlain(user: string, server: string)
    requires '$' !in user && '$' !in server
    ensures WelcomeText(DefaultMessage, user, server) == "Welcome to " + server + ", " + user + "!"
  {
    DefaultWelcomeText(user, server);
    SubstitutionOfPlain(user, "{user}", "Welcome to {server}, ", "!");
    SubstitutionOfPlain(server, "{server}", "Welcome to ", ", " + user + "!");
  }

  /** "$$" stands for one "$": a guild named "A$$B" is shown as "A$B". */
  lemma DoubledDollar(matched: string, before: string, after: string)
    ensures Substitution("A$$B", matched, before, after) == "A$B"
  {
    assert "A$$B"[1..] == "$$B";
    assert "$$B"[2..] == "B";
  }

  /** "$&" stands for the match: a guild named "x$&y" is shown as "x{server}y". */
  lemma MatchPattern(before: string, after: string)
    ensures Substitution("x$&y", "{server}", before, after) == "x{server}y"
  {
    assert "x$&y"[1..] == "$&y";
    assert "$&y"[2..] == "y";
  }

  lemma DoubledDollarServer()
    ensures WelcomeText(DefaultMessage, "alice", "A$$B") == "Welcome to " + "A$B" + ", " + "alice" + "!"
  {
    DefaultWelcomePlainUser("alice", "A$$B");
    DoubledDollar("{server}", "Welcome to ", ", " + "alice" + "!");
  }

  lemma MatchPatternServer()
    ensures WelcomeText(DefaultMessage, "alice", "x$&y") == "Welcome to " + "x{server}y" + ", " + "alice" + "!"
  {
    DefaultWelcomePlainUser("alice", "x$&y");
    MatchPattern("Welcome to ", ", " + "alice" + "!");
  }

  /** A user name without "$" is inserted as it is; the guild name is expanded. */
  lemma DefaultWelcomePlainUser(user: string, server: string)
    requires '$' !in user
    ensures WelcomeText(DefaultMessage, user, server) ==
            "Welcome to " + Substitution(server, "{server}", "Welcome to ", ", " + user + "!") + ", " + user + "!"
  {
    DefaultWelcomeText(user, server);
    SubstitutionOfPlain(user, "{user}", "Welcome to {server}, ", "!");
  }
}
