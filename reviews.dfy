/**
 * The review the generative service returns, and the rules that decide how
 * each reported issue is displayed (src/App.jsx, the issue list).
 */
module Reviews {

  /** One flagged problem: its severity as sent, a message, and a line (0 when unlocated). */
  datatype Issue = Issue(severity: string, message: string, line: int)

  /** The parsed review: summary, quality score, issues and suggestions, in the order given. */
  datatype Review = Review(summary: string, score: real, issues: seq<Issue>, suggestions: seq<string>)

  /** The three visual treatments an issue can get. */
  datatype Tone = Red | Yellow | Blue

  /**
   * The severity chain every styling site uses: "high" is red, "medium" is
   * yellow, and every other string, "low" or not, is blue.
   */
  function ToneOf(severity: string): (t: Tone)
    ensures t == Red <==> severity == "high"
    ensures t == Yellow <==> severity == "medium"
    ensures t == Blue <==> severity != "high" && severity != "medium"
  {
    if severity == "high" then Red
    else if severity == "medium" then Yellow
    else Blue
  }

  /** Classes of the card around an issue, for each tone. */
  function CardStyle(t: Tone): string {
    match t
    case Red => "bg-red-500/10 border border-red-500/30"
    case Yellow => "bg-yellow-500/10 border border-yellow-500/30"
    case Blue => "bg-blue-500/10 border border-blue-500/30"
  }

  /** Classes of the alert icon of an issue, for each tone. */
  function IconStyle(t: Tone): string {
    match t
    case Red => "text-red-400"
    case Yellow => "text-yellow-400"
    case Blue => "text-blue-400"
  }

  /** Classes of the severity badge of an issue, for each tone. */
  function BadgeStyle(t: Tone): string {
    match t
    case Red => "bg-red-500/20 text-red-300"
    case Yellow => "bg-yellow-500/20 text-yellow-300"
    case Blue => "bg-blue-500/20 text-blue-300"
  }

  /** The card's severity-dependent classes, as the card's own conditional chain picks them. */
  function CardClass(severity: string): (c: string)
    ensures c == CardStyle(ToneOf(severity))
  {
    if severity == "high" then "bg-red-500/10 border border-red-500/30"
    else if severity == "medium" then "bg-yellow-500/10 border border-yellow-500/30"
    else "bg-blue-500/10 border border-blue-500/30"
  }

  /** The icon's severity-dependent classes, as the icon's own conditional chain picks them. */
  function IconClass(severity: string): (c: string)
    ensures c == IconStyle(ToneOf(severity))
  {
    if severity == "high" then "text-red-400"
    else if severity == "medium" then "text-yellow-400"
    else "text-blue-400"
  }

  /** The badge's severity-dependent classes, as the badge's own conditional chain picks them. */
  function BadgeClass(severity: string): (c: string)
    ensures c == BadgeStyle(ToneOf(severity))
  {
    if severity == "high" then "bg-red-500/20 text-red-300"
    else if severity == "medium" then "bg-yellow-500/20 text-yellow-300"
    else "bg-blue-500/20 text-blue-300"
  }

  /** Each site gives the three tones three different looks. */
  lemma StylesDistinguishTones(t1: Tone, t2: Tone)
    ensures CardStyle(t1) == CardStyle(t2) <==> t1 == t2
    ensures IconStyle(t1) == IconStyle(t2) <==> t1 == t2
    ensures BadgeStyle(t1) == BadgeStyle(t2) <==> t1 == t2
  {
  }

  /**
   * The three sites are consistent: two severities get the same card exactly
   * when they get the same icon, exactly when they get the same badge, exactly
   * when they fall into the same class of the severity chain.
   */
  lemma SitesAgree(s1: string, s2: string)
    ensures CardClass(s1) == CardClass(s2) <==> ToneOf(s1) == ToneOf(s2)
    ensures IconClass(s1) == IconClass(s2) <==> ToneOf(s1) == ToneOf(s2)
    ensures BadgeClass(s1) == BadgeClass(s2) <==> ToneOf(s1) == ToneOf(s2)
  {
    StylesDistinguishTones(ToneOf(s1), ToneOf(s2));
  }

  /** The "Line n" note is shown for a positive line only; 0 (unlocated) and negatives show nothing. */
  predicate ShowLine(issue: Issue)
    ensures ShowLine(issue) <==> issue.line >= 1
    ensures issue.line == 0 ==> !ShowLine(issue)
  {
    issue.line > 0
  }
}
