/** The process environment the services read, as one immutable record, and
    the fixed NEAR AI settings (base URL, timeout, the auth message, recipient
    and callback URL) written out as constants. */
module Config {
  import opened Common

  /** The environment variables the core reads; None is an unset variable. */
  datatype Env = Env(
    useActualApi: Option<string>,      // USE_ACTUAL_API
    nearAiAuthToken: Option<string>,   // NEAR_AI_AUTH_TOKEN
    nearAccountId: Option<string>,     // NEAR_ACCOUNT_ID
    nearPrivateKey: Option<string>,    // NEAR_PRIVATE_KEY
    nearAiModel: Option<string>,       // NEAR_AI_MODEL
    nearAiApiUrl: Option<string>,      // NEAR_AI_API_URL
    npmPackageVersion: Option<string>) // npm_package_version

  /** `process.env.USE_ACTUAL_API === 'true'`: only the exact text enables it. */
  predicate LiveApiEnabled(env: Env)
  {
    env.useActualApi == Some("true")
  }

  const DefaultBaseUrl := "https://api.near.ai"
  const TimeoutMs := 30000
  const AuthMessage := "Welcome to NEAR AI Hub!"
  const AuthRecipient := "ai.near"
  const AuthCallbackUrl := "https://app.near.ai/sign-in/callback"

  /** The model the live API is asked for. */
  function DefaultModel(env: Env): string
  {
    OrElse(env.nearAiModel, "near-ai-agent-v1")
  }

  /** The API base URL. */
  function BaseUrl(env: Env): string
  {
    OrElse(env.nearAiApiUrl, DefaultBaseUrl)
  }

  /** The NEAR connection settings the agent is built with; only the network
      id is read by the core. */
  datatype NearConfig = NearConfig(networkId: string, nodeUrl: string)
}
