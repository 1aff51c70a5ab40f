/**
 * `/d20` (src/commands/d20.ts): help, then a d20 roll with an optional
 * modifier taken from the first argument, clamped to [-100, 100]. The die
 * value (`Math.floor(Math.random() * 20) + 1`) is a parameter.
 */
module D20 {
  import opened Wrappers
  import opened Js
  import opened Telegram
  import opened CommandArgs

  /** What `/d20` replies: the help text, the plain roll, or the roll with its modifier. */
  datatype D20Reply =
    | Help
    | Plain(name: string, roll: int)
    | WithModifier(name: string, total: int, roll: int, sign: string)

  /** `ctx.from?.first_name || ctx.from?.username || 'Usuário'`: empty names count as missing. */
  function DisplayName(from: Option<User>): (name: string)
    ensures name != ""
  {
    if from.Some? && from.value.firstName.Some? && from.value.firstName.value != "" then from.value.firstName.value
    else if from.Some? && from.value.username.Some? && from.value.username.value != "" then from.value.username.value
    else "Usuário"
  }

  /** The modifier the first argument spells with `/^([+-]?\d+)$/`, or 0. */
  function Modifier(args: seq<string>): (m: int)
    ensures var input := if |args| > 0 then args[0] else "";
      (IsSignedInteger(input) ==> ParseInt(input) == Some(m)) && (!IsSignedInteger(input) ==> m == 0)
  {
    var input := if |args| > 0 then args[0] else "";
    if IsSignedInteger(input) then
      ParseIntOfSignedInteger(input);
      ParseInt(input).value
    else 0
  }

  /** `Math.max(-100, Math.min(100, m))`. */
  function Clamp(m: int): (c: int)
    ensures -100 <= c <= 100
    ensures -100 <= m <= 100 ==> c == m
    ensures m > 100 ==> c == 100
    ensures m < -100 ==> c == -100
  {
    if m > 100 then 100 else if m < -100 then -100 else m
  }

  /** `+n` for a modifier that is not negative, `-n` otherwise. */
  function SignText(m: int): (s: string)
    ensures |s| >= 2 && (s[0] == '+' <==> m >= 0) && (s[0] == '-' <==> m < 0)
  {
    if m >= 0 then "+" + IntToString(m) else IntToString(m)
  }

  /** The sign text reads back, through `parseInt`, as the modifier it shows. */
  lemma SignTextReadsBack(m: int)
    ensures IsSignedInteger(SignText(m)) && ParseInt(SignText(m)) == Some(m)
  {
    var s := SignText(m);
    var digits := NatToString(if m < 0 then -m else m);
    assert SignedBody(s) == digits by {
      assert s[1..] == digits;
    }
    ParseIntOfSignedInteger(s);
    NatToStringValue(if m < 0 then -m else m);
  }

  /** `d20Command`, for the message text, the sender, and the die value. */
  function D20Command(text: Option<string>, from: Option<User>, roll: int): (r: D20Reply)
    requires 1 <= roll <= 20
    ensures WantsHelp(SpaceArgs(text)) <==> r == Help
    ensures r.Plain? ==> r == Plain(DisplayName(from), roll) && Clamp(Modifier(SpaceArgs(text))) == 0
    ensures r.WithModifier? ==>
      var m := Clamp(Modifier(SpaceArgs(text)));
      m != 0 && r.name == DisplayName(from) && r.roll == roll
      && r.total == roll + m && -99 <= r.total <= 120 && r.sign == SignText(m)
  {
    var args := SpaceArgs(text);
    if WantsHelp(args) then Help
    else
      var m := Clamp(Modifier(args));
      if m != 0 then WithModifier(DisplayName(from), roll + m, roll, SignText(m))
      else Plain(DisplayName(from), roll)
  }
}
