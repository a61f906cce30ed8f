/** The deployment environments: the `Environment` record type and the
    registry that maps an environment name to its record. */
module Environments {
  import opened Wrappers

  /** The closed set of environment names a record may carry. */
  datatype EnvironmentName = Local | Ci | Dev | Qa | Stage | Prod {
    /** The string literal TypeScript uses for this name. */
    function Text(): string {
      match this
      case Local => "local"
      case Ci => "ci"
      case Dev => "dev"
      case Qa => "qa"
      case Stage => "stage"
      case Prod => "prod"
    }
  }

  datatype EnvironmentRegion = UsEast1 | UsWest2 {
    function Text(): string {
      match this
      case UsEast1 => "us-east-1"
      case UsWest2 => "us-west-2"
    }
  }

  datatype Environment = Environment(
    orgName: string,
    envName: EnvironmentName,
    appName: string,
    region: EnvironmentRegion,
    provisionedConcurrencyEnabled: bool)

  /** The `dev` environment record. */
  const DevEnvironment: Environment :=
    Environment("Wizeline", Dev, "olympic-games-kb", UsEast1, false)

  /** The registry of configured environments: only `dev` is registered. */
  const Registry: map<EnvironmentName, Environment> := map[Dev := DevEnvironment]

  /** Error thrown by the environment lookup. */
  datatype EnvironmentError =
    | TypeError(message: string)   // ENV_NAME is not a string
    | Error(message: string)       // no registry entry for the name

  /** The name whose literal is `s`, if any (the TypeScript cast `as EnvironmentName`
      does not check; a string outside the enumeration simply misses in the map). */
  function ParseEnvironmentName(s: string): (r: Option<EnvironmentName>)
    ensures r.Some? ==> r.value.Text() == s
    ensures r.None? ==> forall n: EnvironmentName :: n.Text() != s
  {
    if s == "local" then Some(Local)
    else if s == "ci" then Some(Ci)
    else if s == "dev" then Some(Dev)
    else if s == "qa" then Some(Qa)
    else if s == "stage" then Some(Stage)
    else if s == "prod" then Some(Prod)
    else None
  }

  lemma ParseEnvironmentNameRoundTrip(n: EnvironmentName)
    ensures ParseEnvironmentName(n.Text()) == Some(n)
  {
  }

  /** `getEnvironment`, with the process variable ENV_NAME passed in:
      `None` stands for a missing (non-string) variable, which fails at module
      load before any lookup; any other string is looked up in the registry. */
  function GetEnvironment(envName: Option<string>): (r: Result<Environment, EnvironmentError>)
    ensures envName.None? ==> r == Failure(TypeError("Missing ENV_NAME environment variable"))
    ensures r.Success? <==> envName == Some("dev")
    ensures r.Success? ==> r.value == DevEnvironment && r.value in Registry.Values
    ensures envName.Some? && r.Failure? ==>
              r.error == Error("No environment found for name: " + envName.value)
  {
    match envName
    case None => Failure(TypeError("Missing ENV_NAME environment variable"))
    case Some(s) =>
      var name := ParseEnvironmentName(s);
      if name.Some? && name.value in Registry then Success(Registry[name.value])
      else Failure(Error("No environment found for name: " + s))
  }

  /** A valid environment name that is not registered (e.g. "prod") still fails. */
  lemma UnregisteredNamesFail(n: EnvironmentName)
    requires n != Dev
    ensures GetEnvironment(Some(n.Text())).Failure?
    ensures GetEnvironment(Some(n.Text())).error == Error("No environment found for name: " + n.Text())
  {
  }
}
