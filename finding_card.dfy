/** The finding card of the front end (`FindingCardComponent`): the status
    icon and the CSS classes derived from a finding's status, which is
    missing when the analysis left it out. */
module FindingCard {
  import opened Wrappers
  import opened Strings

  const NormalIcon: string := "✓"
  const BorderlineIcon: string := "⚠"
  const AbnormalIcon: string := "!"
  const OtherIcon: string := "•"

  /** `getStatusIcon`: an exact match on the three documented statuses, and
      a bullet for anything else, a missing status included. */
  function StatusIcon(status: Option<string>): (icon: string)
    ensures status == Some("NORMAL") ==> icon == NormalIcon
    ensures status == Some("BORDERLINE") ==> icon == BorderlineIcon
    ensures status == Some("ABNORMAL") ==> icon == AbnormalIcon
    ensures status != Some("NORMAL") && status != Some("BORDERLINE") && status != Some("ABNORMAL") ==>
              icon == OtherIcon
  {
    match status
    case None => OtherIcon
    case Some(s) =>
      if s == "NORMAL" then NormalIcon
      else if s == "BORDERLINE" then BorderlineIcon
      else if s == "ABNORMAL" then AbnormalIcon
      else OtherIcon
  }

  /** Each icon stands for one status only: two statuses with the same
      non-bullet icon are the same status. */
  lemma StatusIconIdentifies(a: Option<string>, b: Option<string>)
    requires StatusIcon(a) == StatusIcon(b) && StatusIcon(a) != OtherIcon
    ensures a == b
  {
  }

  /** The card's class prefix and the badge's. */
  const CardPrefix: string := "finding-"
  const BadgePrefix: string := "status-"

  /** A status class: the prefix and the lowercased status. The card uses
      it with `CardPrefix`, the badge with `BadgePrefix`. A missing status
      has no `toLowerCase`: the binding throws and there is no class, which
      is `None` here. */
  function StatusClass(prefix: string, status: Option<string>): (c: Option<string>)
    ensures c.Some? <==> status.Some?
    ensures c.Some? ==> StartsWith(c.value, prefix) && c.value[|prefix|..] == ToLower(status.value)
  {
    match status
    case None => None
    case Some(s) =>
      var c := prefix + ToLower(s);
      assert c[..|prefix|] == prefix;
      Some(c)
  }

  /** The classes ignore case but the icon does not: "normal" is styled like
      "NORMAL" and still gets the bullet. */
  lemma ClassesIgnoreCaseIconDoesNot()
    ensures StatusClass(CardPrefix, Some("normal")) == StatusClass(CardPrefix, Some("NORMAL"))
    ensures StatusClass(BadgePrefix, Some("normal")) == StatusClass(BadgePrefix, Some("NORMAL"))
    ensures StatusIcon(Some("normal")) == OtherIcon && StatusIcon(Some("NORMAL")) == NormalIcon
  {
    assert ToLower("NORMAL") == "normal";
    assert ToLower("normal") == "normal";
  }

  /** Statuses that lowercase alike share both classes. */
  lemma ClassesDependOnLowercase(a: string, b: string)
    requires ToLower(a) == ToLower(b)
    ensures StatusClass(CardPrefix, Some(a)) == StatusClass(CardPrefix, Some(b))
    ensures StatusClass(BadgePrefix, Some(a)) == StatusClass(BadgePrefix, Some(b))
  {
  }
}
