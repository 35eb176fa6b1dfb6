/**
 * The environment variables the route handlers read, each `undefined` (None) or a string.
 * The handlers re-read them on every request; here they are one record passed in.
 */
module Config {
  import opened Wrappers
  import opened Text

  datatype Env = Env(
    supabaseUrl: Option<string>,        // SUPABASE_URL
    serviceRoleKey: Option<string>,     // SUPABASE_SERVICE_ROLE_KEY
    webhookUrl: Option<string>,         // N8N_WEBHOOK_URL
    webhookToken: Option<string>,       // N8N_WEBHOOK_TOKEN
    publicBaseUrl: Option<string>)      // PUBLIC_BASE_URL

  /** `!!process.env.X`: the variable is defined and not the empty string (no trimming). */
  predicate IsSet(v: Option<string>) {
    v.Some? && v.value != ""
  }

  /** The store is usable only when both its endpoint and its credential are set. */
  predicate StoreConfigured(env: Env) {
    IsSet(env.supabaseUrl) && IsSet(env.serviceRoleKey)
  }

  /** `(process.env.X || "").trim()`: an optional setting, "" when unset or blank. */
  function Setting(v: Option<string>): (s: string)
    ensures v.None? ==> s == ""
    ensures s != "" ==> !IsWhitespace(s[0]) && !IsWhitespace(s[|s| - 1])
  {
    Trim(v.GetOr(""))
  }

  /** A setting reads as empty exactly when it is unset or all whitespace. */
  lemma SettingEmptyIff(v: Option<string>)
    ensures Setting(v) == "" <==> v.None? || AllWhitespace(v.value)
  {
    TrimEmptyIff(v.GetOr(""));
  }
}
