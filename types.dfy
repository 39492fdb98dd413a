/** The shapes the console passes around: log levels and entries, settings, decoded tokens. */
module Types {
  import opened Wrappers

  /** The five levels a diagnostic log entry can carry. */
  datatype LogLevel = Info | Success | Warning | Error | Event

  /** One recorded diagnostic event (its capture timestamp is not modelled). */
  datatype LogEntry = LogEntry(id: nat, level: LogLevel, message: string, data: Option<string>)

  /** The four-field client configuration the settings form edits. */
  datatype OidcSettings = OidcSettings(authority: string, clientId: string, scope: string, redirectUri: string)

  /** Header and payload of a compact token, as values of the abstract JSON type `J`. */
  datatype DecodedJwt<J> = DecodedJwt(header: J, payload: J)
}
