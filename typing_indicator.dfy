/** The line under the message list naming who is typing. */
module TypingIndicator {
  import opened Wrappers
  import opened Text

  const IsTypingSuffix: string := " is typing"
  const AreTypingSuffix: string := " are typing"
  const OthersSuffix: string := " others are typing"

  /** The text shown for the names of the users typing; nothing is rendered for no names. Only the
      first name is spelled out beyond two. */
  function DisplayText(names: seq<string>): Option<string>
  {
    if |names| == 0 then None
    else if |names| == 1 then Some(names[0] + IsTypingSuffix)
    else if |names| == 2 then Some(names[0] + " and " + names[1] + AreTypingSuffix)
    else Some(names[0] + " and " + NatToString(|names| - 1) + OthersSuffix)
  }

  /** Something is shown exactly when someone types, it always begins with the first name, and its
      ending says which of the three forms it is. */
  lemma DisplayTextShape(names: seq<string>)
    ensures DisplayText(names).None? <==> |names| == 0
    ensures |names| > 0 ==> StartsWith(DisplayText(names).value, names[0])
    ensures |names| == 1 ==> DisplayText(names).value == names[0] + IsTypingSuffix
    ensures |names| == 2 ==> DisplayText(names).value == names[0] + " and " + names[1] + AreTypingSuffix
    ensures |names| >= 3 ==>
      exists digits: string ::
        && DisplayText(names).value == names[0] + " and " + digits + OthersSuffix
        && (forall k :: 0 <= k < |digits| ==> '0' <= digits[k] <= '9')
        && (|digits| > 1 ==> digits[0] != '0')
        && ParseDigits(digits) == |names| - 1
  {
    if |names| >= 3 {
      NatToStringRoundTrip(|names| - 1);
      var digits := NatToString(|names| - 1);
      assert DisplayText(names).value == names[0] + " and " + digits + OthersSuffix;
    }
  }

  /** With the same first name, three or more typists give different texts for different counts:
      the count is never lost. */
  lemma {:induction false} DisplayTextCountsOthers(a: seq<string>, b: seq<string>)
    requires |a| >= 3 && |b| >= 3 && a[0] == b[0]
    ensures DisplayText(a) == DisplayText(b) <==> |a| == |b|
  {
    var p := a[0] + " and ";
    var da := NatToString(|a| - 1);
    var db := NatToString(|b| - 1);
    var ta := p + da + OthersSuffix;
    var tb := p + db + OthersSuffix;
    assert DisplayText(a) == Some(ta);
    assert DisplayText(b) == Some(tb);
    if ta == tb {
      assert |da| == |db|;
      assert da == ta[|p|..|p| + |da|];
      assert db == tb[|p|..|p| + |db|];
      NatToStringInjective(|a| - 1, |b| - 1);
    }
  }
}
