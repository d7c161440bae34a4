/** The in-memory job registry of run.py: two dictionaries from
    (user address, contract name) to the web3 worker handling that pair,
    one for deployments and one for grading runs, with the create-if-absent
    lookups and the remove-when-finished handlers built on them.

    Workers run outside this model. A worker is known by its handle; what it
    currently reports is given by the caller as `report`, a function from
    handles to statuses observed at the moment of the call. Every worker the
    registry creates is recorded, in order, in the ghost log `launches`,
    with the work it was started on, or as an `IdleGrader` when it was
    registered for grading but never started. */
module Registry {
  import opened Wrappers

  /** (user address, contract name) */
  type Key = (string, string)

  /** A worker handle; its serial is the position of its creation in `launches`. */
  datatype Handle = Handle(serial: nat)

  /** What a worker reports: its phase text (`status[0]`) and its result
      (`status[1]`, None while there is none). */
  datatype WorkerStatus = WorkerStatus(phase: string, payload: Option<string>)

  /** One worker creation: a deployment of `contract` for `address`; a
      grading run of `contractName` for `address` against the deployed
      contract address found in the database; or a grading worker that was
      registered but never started, because looking that address up raised. */
  datatype Launch =
    | DeployLaunch(contract: string, address: string)
    | GradeLaunch(contractName: string, address: string, deployedAt: Option<string>)
    | IdleGrader(contractName: string, address: string)

  /** An exception raised while looking up the deployed contract address
      (the challenge-number conversion or the database query). */
  datatype LookupError = LookupFailed(reason: string)

  /** The database write `done` performs once a deployment finished. */
  datatype AddressWrite = AddressWrite(address: string, contract: string, deployedAt: string)

  const DeployedPhase := "deployed"
  const GradedPhase := "graded"
  const StartingDeployment := "Starting deployment process"
  const StartingGrading := "Starting grading process"

  /** A deployment is over once it reports "deployed" with a result. */
  predicate DeployFinished(st: WorkerStatus)
  {
    st.payload.Some? && st.phase == DeployedPhase
  }

  /** A grading run is over once it reports "graded" with a result. */
  predicate GradeFinished(st: WorkerStatus)
  {
    st.payload.Some? && st.phase == GradedPhase
  }

  /** The text a handler answers: the phase when it is non-empty. */
  function ReplyText(st: WorkerStatus, fallback: string): string
  {
    if st.phase != [] then st.phase else fallback
  }

  /** Every registered handle is a worker that was created for its own key
      and of its own kind. */
  ghost predicate Consistent(deployers: map<Key, Handle>, graders: map<Key, Handle>, launches: seq<Launch>)
  {
    && (forall k :: k in deployers ==>
          deployers[k].serial < |launches| &&
          launches[deployers[k].serial] == DeployLaunch(k.1, k.0))
    && (forall k :: k in graders ==>
          graders[k].serial < |launches| &&
          !launches[graders[k].serial].DeployLaunch? &&
          launches[graders[k].serial].contractName == k.1 &&
          launches[graders[k].serial].address == k.0)
  }

  /** In a consistent registry no worker serves two keys, nor both a
      deployment and a grading run. */
  lemma HandlesDistinct(deployers: map<Key, Handle>, graders: map<Key, Handle>, launches: seq<Launch>)
    requires Consistent(deployers, graders, launches)
    ensures forall k1, k2 :: k1 in deployers && k2 in deployers && deployers[k1] == deployers[k2] ==> k1 == k2
    ensures forall k1, k2 :: k1 in graders && k2 in graders && graders[k1] == graders[k2] ==> k1 == k2
    ensures forall k1, k2 :: k1 in deployers && k2 in graders ==> deployers[k1] != graders[k2]
  {
  }

  /** Creating a worker for an absent key and registering it keeps the
      registry consistent. */
  lemma {:induction false} StartDeployKeepsConsistent(deployers: map<Key, Handle>, graders: map<Key, Handle>,
                                                      launches: seq<Launch>, key: Key)
    requires Consistent(deployers, graders, launches)
    ensures Consistent(deployers[key := Handle(|launches|)], graders, launches + [DeployLaunch(key.1, key.0)])
  {
  }

  lemma {:induction false} StartGradeKeepsConsistent(deployers: map<Key, Handle>, graders: map<Key, Handle>,
                                                     launches: seq<Launch>, key: Key, worker: Launch)
    requires Consistent(deployers, graders, launches)
    requires !worker.DeployLaunch? && worker.contractName == key.1 && worker.address == key.0
    ensures Consistent(deployers, graders[key := Handle(|launches|)], launches + [worker])
  {
  }

  class JobRegistry {
    var deployers: map<Key, Handle>
    var graders: map<Key, Handle>
    /** Number of workers created so far; the next handle's serial. */
    var spawned: nat
    ghost var launches: seq<Launch>

    ghost predicate Valid()
      reads this
    {
      spawned == |launches| && Consistent(deployers, graders, launches)
    }

    constructor ()
      ensures Valid()
      ensures deployers == map[] && graders == map[] && launches == []
    {
      deployers, graders := map[], map[];
      spawned := 0;
      launches := [];
    }

    /** The deploy worker a lookup for `key` ends up with: the registered one,
        or else the one it creates next. */
    function DeployHandle(key: Key): Handle
      reads this
    {
      if key in deployers then deployers[key] else Handle(spawned)
    }

    function GradeHandle(key: Key): Handle
      reads this
    {
      if key in graders then graders[key] else Handle(spawned)
    }

    /** run.py `get_deploy_thread_status`: create-if-absent on `deployers`.
        An absent key gets a new worker, which starts deploying; a present
        key reuses its worker and starts nothing. */
    method GetDeployThreadStatus(address: string, contract: string, report: Handle -> WorkerStatus)
      returns (status: WorkerStatus)
      requires Valid()
      modifies this
      ensures Valid()
      ensures deployers == old(deployers)[(address, contract) := old(DeployHandle((address, contract)))]
      ensures (address, contract) in old(deployers) ==> spawned == old(spawned) && launches == old(launches)
      ensures (address, contract) !in old(deployers) ==>
                spawned == old(spawned) + 1 && launches == old(launches) + [DeployLaunch(contract, address)]
      ensures graders == old(graders)
      ensures status == report(deployers[(address, contract)])
    {
      var key := (address, contract);
      var worker: Handle;
      if key !in deployers {
        worker := Handle(spawned);
        StartDeployKeepsConsistent(deployers, graders, launches, key);
        deployers := deployers[key := worker];
        spawned := spawned + 1;
        launches := launches + [DeployLaunch(contract, address)];
      } else {
        worker := deployers[key];
      }
      status := report(worker);
    }

    /** run.py `get_grade_thread_status`: create-if-absent on `graders`.
        `lookup` is what looking up the contract address of this user's
        challenge yields: the stored address, or the exception it raised. An
        absent key first gets a new worker registered; then a new grading run
        is started against the stored address, or, when the lookup raised,
        the exception escapes and the worker stays registered, never started.
        A present key reuses its worker and consults nothing. */
    method GetGradeThreadStatus(address: string, contractName: string,
                                lookup: Result<Option<string>, LookupError>,
                                report: Handle -> WorkerStatus)
      returns (r: Result<WorkerStatus, LookupError>)
      requires Valid()
      modifies this
      ensures Valid()
      ensures graders == old(graders)[(address, contractName) := old(GradeHandle((address, contractName)))]
      ensures (address, contractName) in old(graders) ==>
                spawned == old(spawned) && launches == old(launches) &&
                r == Ok(report(graders[(address, contractName)]))
      ensures (address, contractName) !in old(graders) && lookup.Ok? ==>
                spawned == old(spawned) + 1 &&
                launches == old(launches) + [GradeLaunch(contractName, address, lookup.value)] &&
                r == Ok(report(graders[(address, contractName)]))
      ensures (address, contractName) !in old(graders) && lookup.Err? ==>
                spawned == old(spawned) + 1 &&
                launches == old(launches) + [IdleGrader(contractName, address)] &&
                r == Err(lookup.error)
      ensures deployers == old(deployers)
    {
      var key := (address, contractName);
      var worker: Handle;
      if key !in graders {
        worker := Handle(spawned);
        var job := if lookup.Ok? then GradeLaunch(contractName, address, lookup.value)
                   else IdleGrader(contractName, address);
        StartGradeKeepsConsistent(deployers, graders, launches, key, job);
        graders := graders[key := worker];
        spawned := spawned + 1;
        launches := launches + [job];
        if lookup.Err? {
          return Err(lookup.error);
        }
      } else {
        worker := graders[key];
      }
      r := Ok(report(worker));
    }

    /** run.py `done`: look the deployment up (starting it if needed); once
        it is finished, drop it from the registry and record the deployed
        address. Answers the phase, or the starting message when it is empty. */
    method Done(address: string, contract: string, report: Handle -> WorkerStatus)
      returns (reply: string, written: Option<AddressWrite>)
      requires Valid()
      modifies this
      ensures Valid()
      ensures (address, contract) in old(deployers) ==> spawned == old(spawned) && launches == old(launches)
      ensures (address, contract) !in old(deployers) ==>
                spawned == old(spawned) + 1 && launches == old(launches) + [DeployLaunch(contract, address)]
      ensures graders == old(graders)
      ensures DeployFinished(report(old(DeployHandle((address, contract))))) ==>
                deployers == old(deployers) - {(address, contract)} &&
                written == Some(AddressWrite(address, contract, report(old(DeployHandle((address, contract)))).payload.value))
      ensures !DeployFinished(report(old(DeployHandle((address, contract))))) ==>
                deployers == old(deployers)[(address, contract) := old(DeployHandle((address, contract)))] &&
                written == None
      ensures reply == ReplyText(report(old(DeployHandle((address, contract)))), StartingDeployment)
    {
      var status := GetDeployThreadStatus(address, contract, report);
      written := None;
      if status.payload.Some? && status.phase == DeployedPhase {
        deployers := deployers - {(address, contract)};
        written := Some(AddressWrite(address, contract, status.payload.value));
      }
      if status.phase != [] {
        reply := status.phase;
      } else {
        reply := StartingDeployment;
      }
    }

    /** run.py `grade`: look the grading run up (starting it if needed) and
        drop it from the registry once it is finished. Nothing is written.
        An exception from the lookup escapes with the worker left registered. */
    method Grade(address: string, contractName: string, lookup: Result<Option<string>, LookupError>,
                 report: Handle -> WorkerStatus)
      returns (reply: Result<string, LookupError>)
      requires Valid()
      modifies this
      ensures Valid()
      ensures (address, contractName) in old(graders) ==> spawned == old(spawned) && launches == old(launches)
      ensures (address, contractName) !in old(graders) ==>
                spawned == old(spawned) + 1 &&
                launches == old(launches) +
                  [if lookup.Ok? then GradeLaunch(contractName, address, lookup.value)
                   else IdleGrader(contractName, address)]
      ensures deployers == old(deployers)
      ensures (address, contractName) !in old(graders) && lookup.Err? ==>
                reply == Err(lookup.error) &&
                graders == old(graders)[(address, contractName) := old(GradeHandle((address, contractName)))]
      ensures (address, contractName) in old(graders) || lookup.Ok? ==>
                reply == Ok(ReplyText(report(old(GradeHandle((address, contractName)))), StartingGrading))
      ensures ((address, contractName) in old(graders) || lookup.Ok?) &&
              GradeFinished(report(old(GradeHandle((address, contractName))))) ==>
                graders == old(graders) - {(address, contractName)}
      ensures ((address, contractName) in old(graders) || lookup.Ok?) &&
              !GradeFinished(report(old(GradeHandle((address, contractName))))) ==>
                graders == old(graders)[(address, contractName) := old(GradeHandle((address, contractName)))]
    {
      var result := GetGradeThreadStatus(address, contractName, lookup, report);
      if result.Err? {
        return Err(result.error);
      }
      var status := result.value;
      if status.payload.Some? && status.phase == GradedPhase {
        graders := graders - {(address, contractName)};
      }
      if status.phase != [] {
        reply := Ok(status.phase);
      } else {
        reply := Ok(StartingGrading);
      }
    }
  }

  /** After `done` has dropped a finished deployment, the next lookup for
      the same pair creates a worker that was never registered before and
      starts a new deployment with it. */
  method RedeployAfterDone(registry: JobRegistry, address: string, contract: string,
                           report: Handle -> WorkerStatus)
    returns (reply: string, written: Option<AddressWrite>, status: WorkerStatus)
    requires registry.Valid()
    requires DeployFinished(report(registry.DeployHandle((address, contract))))
    modifies registry
    ensures registry.Valid()
    ensures written == Some(AddressWrite(address, contract,
                                         report(old(registry.DeployHandle((address, contract)))).payload.value))
    ensures reply == DeployedPhase
    ensures (address, contract) in registry.deployers
    ensures registry.deployers[(address, contract)] !in old(registry.deployers).Values
    ensures registry.deployers[(address, contract)] != old(registry.DeployHandle((address, contract)))
    ensures registry.launches == old(registry.launches)
              + (if (address, contract) in old(registry.deployers) then [] else [DeployLaunch(contract, address)])
              + [DeployLaunch(contract, address)]
    ensures registry.graders == old(registry.graders)
    ensures status == report(registry.deployers[(address, contract)])
  {
    reply, written := registry.Done(address, contract, report);
    status := registry.GetDeployThreadStatus(address, contract, report);
  }

  /** A deployment that reports "deployed" with its address at the first
      visit is answered, recorded and dropped; the next visit for the same
      pair starts a second, fresh deployment. */
  method RedeployExample(address: string, contract: string, deployedAt: string)
    returns (reply: string, written: Option<AddressWrite>, next: Handle, nextStatus: WorkerStatus)
    ensures reply == DeployedPhase
    ensures written == Some(AddressWrite(address, contract, deployedAt))
    ensures next == Handle(1)
    ensures nextStatus == WorkerStatus("", None)
  {
    var registry := new JobRegistry();
    var finished := (h: Handle) => if h.serial == 0 then WorkerStatus(DeployedPhase, Some(deployedAt))
                                   else WorkerStatus("", None);
    reply, written := registry.Done(address, contract, finished);
    assert (address, contract) !in registry.deployers;
    nextStatus := registry.GetDeployThreadStatus(address, contract, finished);
    next := registry.deployers[(address, contract)];
    assert registry.launches == [DeployLaunch(contract, address), DeployLaunch(contract, address)];
  }
}
