/** Worker commands and their parameters (src/types/command-types.ts). */
module CommandTypes {
  import opened Wrappers

  /** `WorkerCommand = 'deploy' | 'dev'`. */
  datatype WorkerCommand = Deploy | Dev {
    /** The command word passed to wrangler. */
    function Word(): string {
      match this
      case Deploy => "deploy"
      case Dev => "dev"
    }
  }

  /**
   * Placeholder values substituted into config files, as the ordered
   * entries of a `Record<string, string>` (an absent record is `[]`).
   */
  type Variables = seq<(string, string)>

  /**
   * `WorkerCommandParams = DevCommandParams | DeployCommandParams`.
   * Optional strings are "" when absent; `deploySecrets` exists only on
   * the deploy variant.
   */
  datatype WorkerCommandParams =
    | DevCommandParams(workerName: string, rootDir: string, workersDirName: string,
                       env: string, baseConfig: string, variables: Variables)
    | DeployCommandParams(workerName: string, rootDir: string, workersDirName: string,
                          env: string, baseConfig: string, variables: Variables,
                          deploySecrets: bool)
  {
    /** The `command` discriminant. */
    function Command(): WorkerCommand {
      if DevCommandParams? then Dev else Deploy
    }
  }

  /** `isDevCommandParams`: `params.command === 'dev'`. */
  predicate IsDevCommandParams(p: WorkerCommandParams)
    ensures IsDevCommandParams(p) <==> p.DevCommandParams?
  {
    p.Command() == Dev
  }

  /** `isDeployCommandParams`: `params.command === 'deploy'`. */
  predicate IsDeployCommandParams(p: WorkerCommandParams)
    ensures IsDeployCommandParams(p) <==> p.DeployCommandParams?
  {
    p.Command() == Deploy
  }

  /** Exactly one of the two guards holds for any parameters. */
  lemma ExactlyOneGuard(p: WorkerCommandParams)
    ensures IsDevCommandParams(p) != IsDeployCommandParams(p)
  {
  }

  /** The positional argument of the `worker` command (`WorkerArgs`); "" when absent. */
  datatype WorkerArgs = WorkerArgs(workerName: string)

  /**
   * The flags of the `worker` command (`WorkerFlags`); absent strings are
   * "", absent booleans false, and an absent command `None`.
   */
  datatype WorkerFlags = WorkerFlags(
    all: bool,
    baseConfig: string,
    command: Option<WorkerCommand>,
    deploySecrets: bool,
    env: string,
    rootDir: string,
    workersDirName: string)

  /** The `{}` that stands in for missing arguments. */
  const NoArgs := WorkerArgs("")

  /** The `{}` that stands in for missing flags. */
  const NoFlags := WorkerFlags(false, "", None, false, "", "", "")
}
