/** The parts of the agent pod that other components rely on: its name, its owner and its branches. */
module PodBuilder {
  import opened AgentTypes

  datatype PodPhase = PodPending | PodRunning | PodSucceeded | PodFailed | PodUnknown

  datatype EnvSource = Literal(text: string) | FromSecret(ref: SecretKeyRef)

  datatype EnvVar = EnvVar(name: string, source: EnvSource)

  /** `cloneBase` and `cloneBranch` are the branches the init container clones and checks out. */
  datatype Pod = Pod(name: string, owner: Option<string>, env: seq<EnvVar>,
                     cloneBase: string, cloneBranch: string)

  function PodNameFor(taskName: string): string {
    "agent-" + taskName
  }

  function WorkBranchFor(name: string, git: GitSpec): (branch: string)
    ensures branch != ""
    ensures git.workBranch != "" ==> branch == git.workBranch
  {
    if git.workBranch != "" then git.workBranch else "kbrain/" + name
  }

  function TargetBranch(git: GitSpec): string {
    if git.targetBranch != "" then git.targetBranch else git.baseBranch
  }

  function CommonAgentEnv(t: Task): seq<EnvVar> {
    [ EnvVar("TASK_DESCRIPTION", Literal(t.spec.description)),
      EnvVar("MODEL_NAME", Literal(t.spec.modelName)),
      EnvVar("GIT_BRANCH", Literal(WorkBranchFor(t.name, t.spec.git))),
      EnvVar("TARGET_BRANCH", Literal(TargetBranch(t.spec.git))),
      EnvVar("GIT_REPO_URL", Literal(t.spec.git.repoURL)),
      EnvVar("AGENT_TYPE", Literal(t.spec.agentType)),
      EnvVar("WORKSPACE", Literal("/workspace/repo")) ]
  }

  /** What the builder for the task's model provider adds. */
  function ProviderEnv(spec: TaskSpec): seq<EnvVar> {
    if spec.modelProvider == "ollama" then [EnvVar("OLLAMA_HOST", Literal("http://localhost:11434"))]
    else if spec.apiKeySecretRef == None then []
    else
      var ref := spec.apiKeySecretRef.value;
      [EnvVar(if spec.agentType == "codex" then "OPENAI_API_KEY" else "ANTHROPIC_API_KEY",
              FromSecret(if ref.key == "" then ref.(key := "api-key") else ref))]
  }

  /** The value a container sees for an environment variable: the last definition wins. */
  function EnvValue(env: seq<EnvVar>, name: string): (value: Option<EnvSource>)
    ensures value == None <==> forall i :: 0 <= i < |env| ==> env[i].name != name
  {
    if env == [] then None
    else if env[|env| - 1].name == name then Some(env[|env| - 1].source)
    else EnvValue(env[..|env| - 1], name)
  }

  lemma {:induction false} EnvValueAt(env: seq<EnvVar>, i: nat)
    requires i < |env|
    requires forall j | i < j < |env| :: env[j].name != env[i].name
    ensures EnvValue(env, env[i].name) == Some(env[i].source)
  {
    if i < |env| - 1 {
      EnvValueAt(env[..|env| - 1], i);
    }
  }

  /** The pod for a task; neither builder ever fails. */
  function Build(t: Task): Pod {
    Pod(PodNameFor(t.name), None, CommonAgentEnv(t) + ProviderEnv(t.spec), t.spec.git.baseBranch,
        WorkBranchFor(t.name, t.spec.git))
  }

  /** Whatever the provider adds, the agent sees the branches of its task, and works on the one that was
      checked out for it. */
  lemma AgentSeesBranches(t: Task)
    ensures EnvValue(Build(t).env, "GIT_BRANCH") == Some(Literal(Build(t).cloneBranch))
    ensures Build(t).cloneBranch
            == if t.spec.git.workBranch != "" then t.spec.git.workBranch else "kbrain/" + t.name
    ensures EnvValue(Build(t).env, "TARGET_BRANCH")
            == Some(Literal(if t.spec.git.targetBranch != "" then t.spec.git.targetBranch
                            else t.spec.git.baseBranch))
    ensures Build(t).cloneBase == t.spec.git.baseBranch
  {
    CommonValue(t, 2);
    CommonValue(t, 3);
  }

  /** It also sees its assignment as its author wrote it. */
  lemma AgentSeesTask(t: Task)
    ensures EnvValue(Build(t).env, "TASK_DESCRIPTION") == Some(Literal(t.spec.description))
    ensures EnvValue(Build(t).env, "MODEL_NAME") == Some(Literal(t.spec.modelName))
    ensures EnvValue(Build(t).env, "GIT_REPO_URL") == Some(Literal(t.spec.git.repoURL))
    ensures EnvValue(Build(t).env, "AGENT_TYPE") == Some(Literal(t.spec.agentType))
    ensures EnvValue(Build(t).env, "WORKSPACE") == Some(Literal("/workspace/repo"))
  {
    CommonValue(t, 0);
    CommonValue(t, 1);
    CommonValue(t, 4);
    CommonValue(t, 5);
    CommonValue(t, 6);
  }

  /** The provider overrides none of the common variables. */
  lemma CommonValue(t: Task, i: nat)
    requires i < |CommonAgentEnv(t)|
    ensures EnvValue(Build(t).env, CommonAgentEnv(t)[i].name) == Some(CommonAgentEnv(t)[i].source)
  {
    assert Build(t).env[i] == CommonAgentEnv(t)[i];
    EnvValueAt(Build(t).env, i);
  }

  /** Beyond the common variables an agent gets either the address of its local model or the key that its
      author refers to, under the name its agent reads. */
  lemma AgentSeesProvider(t: Task)
    ensures t.spec.modelProvider == "ollama" ==>
              && EnvValue(Build(t).env, "OLLAMA_HOST") == Some(Literal("http://localhost:11434"))
              && EnvValue(Build(t).env, "OPENAI_API_KEY") == EnvValue(Build(t).env, "ANTHROPIC_API_KEY") == None
    ensures t.spec.modelProvider != "ollama" ==> EnvValue(Build(t).env, "OLLAMA_HOST") == None
    ensures t.spec.modelProvider != "ollama" && t.spec.apiKeySecretRef.Some? ==>
              var ref := t.spec.apiKeySecretRef.value;
              var key := Some(FromSecret(SecretKeyRef(ref.name, if ref.key == "" then "api-key" else ref.key)));
              && EnvValue(Build(t).env, "OPENAI_API_KEY") == (if t.spec.agentType == "codex" then key else None)
              && EnvValue(Build(t).env, "ANTHROPIC_API_KEY") == (if t.spec.agentType == "codex" then None else key)
  {
    if |Build(t).env| > 7 {
      EnvValueAt(Build(t).env, 7);
    }
  }

  /** Different tasks get different pods and different branches, unless their authors name the branches. */
  lemma NamesAreApart(a: string, b: string, git: GitSpec)
    requires a != b
    ensures PodNameFor(a) != PodNameFor(b)
    ensures git.workBranch == "" ==> WorkBranchFor(a, git) != WorkBranchFor(b, git)
  {
    var pod, branch := "agent-", "kbrain/";
    assert (pod + a)[|pod|..] == a && (pod + b)[|pod|..] == b;
    assert (branch + a)[|branch|..] == a && (branch + b)[|branch|..] == b;
  }

  function WithOwner(pod: Pod, owner: string): Pod {
    pod.(owner := Some(owner))
  }
}
