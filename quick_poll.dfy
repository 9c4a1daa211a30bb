/** The `/poll` command (commands/utility/poll.js): a yes/no poll without options,
    otherwise up to ten numbered options. */
module QuickPoll {
  import opened Common

  const NumberEmojis: seq<string> := ["1️⃣", "2️⃣", "3️⃣", "4️⃣", "5️⃣", "6️⃣", "7️⃣", "8️⃣", "9️⃣", "🔟"]
  const YesNo: seq<string> := ["👍", "👎"]

  /** The poll posted: its option lines (none for yes/no) and its reactions, in order. */
  datatype Outcome = TooManyOptions | Posted(lines: seq<string>, reactions: seq<string>)

  function MakePoll(optionsString: Option<string>): (o: Outcome)
    ensures optionsString.None? || optionsString.value == "" ==> o == Posted([], YesNo)
    ensures optionsString.Some? && optionsString.value != "" ==>
              var options := OptionList(optionsString.value);
              && (o == TooManyOptions <==> |options| > |NumberEmojis|)
              && (o.Posted? ==>
                    && |o.lines| == |options| && o.reactions == NumberEmojis[..|options|]
                    && forall i :: 0 <= i < |options| ==> o.lines[i] == NumberEmojis[i] + " " + options[i])
  {
    if optionsString.None? || optionsString.value == "" then Posted([], YesNo)
    else
      var options := OptionList(optionsString.value);
      if |options| > |NumberEmojis| then TooManyOptions
      else Posted(seq(|options|, i requires 0 <= i < |options| => NumberEmojis[i] + " " + options[i]),
                  NumberEmojis[..|options|])
  }

  /** Unlike the advanced poll there is no lower bound: one option, or none after
      the blanks are dropped, is posted as it is. */
  lemma NoLowerBound(optionsString: string)
    requires optionsString != "" && |OptionList(optionsString)| < 2
    ensures MakePoll(Some(optionsString)).Posted?
  {
  }
}
