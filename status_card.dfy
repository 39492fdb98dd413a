/** The status card: the authentication label and the colour of the "Expires In" row. */
module StatusCard {
  import opened Wrappers
  import opened Helpers

  /** `timeLeft.text === 'EXPIRED'`. */
  predicate IsExpired(t: TimeLeft) {
    t.text == ExpiredText
  }

  /** `timeLeft.seconds > 0 && timeLeft.seconds < 120`. */
  predicate IsExpiringSoon(t: TimeLeft) {
    0 < t.seconds < 120
  }

  /** The classes `cn(isExpired && ..., isExpiringSoon && ..., !isExpired && !isExpiringSoon && ...)` keeps. */
  function ExpiryClasses(t: TimeLeft): (classes: seq<string>)
    ensures 1 <= |classes| <= 2
    ensures "text-success" in classes <==> !IsExpired(t) && !IsExpiringSoon(t)
  {
    (if IsExpired(t) then ["text-destructive"] else [])
    + (if IsExpiringSoon(t) then ["text-warning"] else [])
    + (if !IsExpired(t) && !IsExpiringSoon(t) then ["text-success"] else [])
  }

  /** On formatter output, expired means the expiry has passed and expiring soon means under two minutes are left. */
  lemma ClassifyFormatted(expiresAt: int, now: int)
    ensures IsExpired(FormatTimeLeft(expiresAt, now)) <==> expiresAt <= now
    ensures IsExpiringSoon(FormatTimeLeft(expiresAt, now)) <==> 0 < expiresAt - now < 120
    ensures !(IsExpired(FormatTimeLeft(expiresAt, now)) && IsExpiringSoon(FormatTimeLeft(expiresAt, now)))
  {
  }

  /** Exactly one colour class is chosen for any formatter output: destructive, warning or success. */
  lemma OneClassForFormatted(expiresAt: int, now: int)
    ensures var t := FormatTimeLeft(expiresAt, now);
      ExpiryClasses(t) == [
        if expiresAt <= now then "text-destructive"
        else if expiresAt - now < 120 then "text-warning"
        else "text-success"]
  {
  }

  /** The status label. */
  function StatusLabel(isAuthenticated: bool): (text: string)
    ensures text == "AUTHENTICATED" <==> isAuthenticated
  {
    if isAuthenticated then "AUTHENTICATED" else "NOT AUTHENTICATED"
  }

  /** A present, non-empty `email` prop. */
  predicate HasEmail(email: Option<string>) {
    email.Some? && email.value != ""
  }

  /** The "Expires In" row: only when authenticated, reading "N/A" for an empty text. */
  function ExpiresRow(isAuthenticated: bool, t: TimeLeft): (row: Option<string>)
    ensures row.Some? <==> isAuthenticated
    ensures row.Some? ==> row.value == (if t.text == "" then "N/A" else t.text)
    ensures row.Some? ==> row.value != ""
  {
    if isAuthenticated then Some(if t.text == "" then "N/A" else t.text) else None
  }

  /**
   * The detail block appears iff authenticated or an email is present,
   * which is exactly when at least one of its rows renders.
   */
  function ShowDetails(isAuthenticated: bool, email: Option<string>): (shown: bool)
    ensures shown <==> isAuthenticated || HasEmail(email)
  {
    isAuthenticated || HasEmail(email)
  }

  /** The detail block is never rendered empty: it is shown exactly when its Expires In or User row is. */
  lemma DetailsShownIffARowIs(isAuthenticated: bool, email: Option<string>, t: TimeLeft)
    ensures ShowDetails(isAuthenticated, email) <==> ExpiresRow(isAuthenticated, t).Some? || HasEmail(email)
  {
  }
}
