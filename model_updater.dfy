/** `TIOModelUpdater`: decides whether a newer (hyperparameters, checkpoint)
    pair exists for an installed model bundle and, if so, replaces the bundle.

    The repository and the file system are not modelled: what the repository
    answers and what each step of an update produces are inputs, so the
    decision and the result conventions of the two callbacks are pure
    functions of them. */
module ModelUpdater {
  import opened Wrappers
  import opened FleaModelIdentifier

  /** The repository's error codes (TIOMRErrors.h) and the failures of the
      update's own steps. */
  datatype UpdateError =
    | URLRequestError
    | URLResponseError
    | NoDataError
    | JSONError
    | DeserializationError(entity: string, attribute: string)
    | HealthStatusNotServing
    | DownloadError
    | MalformedBundleId(bundleId: string)
    | UnzipError
    | ValidationError(reason: string)
    | ReplaceError

  /** A model as the repository describes it (TIOMRModel). */
  datatype MRModel = MRModel(modelId: string, details: string, canonicalHyperparameters: string)

  /** A (model, hyperparameters) pair as the repository describes it
      (TIOMRHyperparameter). */
  datatype MRHyperparameter = MRHyperparameter(
    modelId: string,
    hyperparameterId: string,
    upgradeTo: Option<string>,
    canonicalCheckpoint: string)

  /** What the repository answers: the model for a model id, and the
      hyperparameters for a (model id, hyperparameters id) pair. */
  datatype Repository = Repository(
    getModel: string -> Result<MRModel, UpdateError>,
    getHyperparameter: (string, string) -> Result<MRHyperparameter, UpdateError>)

  /** An installed model bundle: where it lives and the id it declares. */
  datatype ModelBundle = ModelBundle(path: string, identifier: string)

  /** The outcome of the comparison behind `checkForUpdate:`. */
  datatype UpdateCheck =
    | UpToDate
    | Available(current: ModelIdentifier, target: ModelIdentifier)
    | CheckFailed(error: UpdateError)

  /** Compares the bundle's triple with the model's canonical hyperparameters
      and their canonical checkpoint. */
  function CheckForUpdate(bundle: ModelBundle, repo: Repository): (c: UpdateCheck)
    ensures c.Available? ==>
              Parse(bundle.identifier) == Some(c.current) &&
              c.target.modelId == c.current.modelId && c.target != c.current
    ensures c.Available? ==>
              && repo.getModel(c.current.modelId).Success?
              && var hps := repo.getModel(c.current.modelId).value.canonicalHyperparameters;
                 && repo.getHyperparameter(c.current.modelId, hps).Success?
                 && c.target.hyperparametersId == hps
                 && c.target.checkpointId == repo.getHyperparameter(c.current.modelId, hps).value.canonicalCheckpoint
    ensures c.UpToDate? ==>
              && Parse(bundle.identifier).Some?
              && var id := Parse(bundle.identifier).value;
                 && repo.getModel(id.modelId).Success?
                 && var hps := repo.getModel(id.modelId).value.canonicalHyperparameters;
                    && repo.getHyperparameter(id.modelId, hps).Success?
                    && id == ModelIdentifier(id.modelId, hps, repo.getHyperparameter(id.modelId, hps).value.canonicalCheckpoint)
    ensures Parse(bundle.identifier).Some? ==>
              var id := Parse(bundle.identifier).value;
              repo.getModel(id.modelId).Failure? ==> c == CheckFailed(repo.getModel(id.modelId).error)
    ensures Parse(bundle.identifier).Some? ==>
              var id := Parse(bundle.identifier).value;
              repo.getModel(id.modelId).Success? ==>
                var hps := repo.getModel(id.modelId).value.canonicalHyperparameters;
                repo.getHyperparameter(id.modelId, hps).Failure? ==>
                  c == CheckFailed(repo.getHyperparameter(id.modelId, hps).error)
    ensures Parse(bundle.identifier).None? ==> c == CheckFailed(MalformedBundleId(bundle.identifier))
  {
    match Parse(bundle.identifier)
    case None => CheckFailed(MalformedBundleId(bundle.identifier))
    case Some(id) =>
      match repo.getModel(id.modelId)
      case Failure(e) => CheckFailed(e)
      case Success(model) =>
        match repo.getHyperparameter(id.modelId, model.canonicalHyperparameters)
        case Failure(e) => CheckFailed(e)
        case Success(hp) =>
          var target := ModelIdentifier(id.modelId, model.canonicalHyperparameters, hp.canonicalCheckpoint);
          if target == id then UpToDate else Available(id, target)
  }

  /** An update is available exactly when the bundle id parses, both lookups
      succeed, and the canonical hyperparameters or their canonical checkpoint
      differ from the bundle's. */
  lemma UpdateAvailableIff(bundle: ModelBundle, repo: Repository)
    ensures CheckForUpdate(bundle, repo).Available? <==>
      && Parse(bundle.identifier).Some?
      && var id := Parse(bundle.identifier).value;
         && repo.getModel(id.modelId).Success?
         && var hps := repo.getModel(id.modelId).value.canonicalHyperparameters;
            && repo.getHyperparameter(id.modelId, hps).Success?
            && (hps != id.hyperparametersId ||
                repo.getHyperparameter(id.modelId, hps).value.canonicalCheckpoint != id.checkpointId)
  {
  }

  /** The arguments `checkForUpdate:` passes to its callback. */
  datatype CheckCallback = CheckCallback(updateAvailable: bool, error: Option<UpdateError>)

  function CheckForUpdateCallback(bundle: ModelBundle, repo: Repository): (r: CheckCallback)
    ensures r.error.Some? ==> !r.updateAvailable
    ensures r.updateAvailable <==> CheckForUpdate(bundle, repo).Available?
    ensures r.error.Some? <==> CheckForUpdate(bundle, repo).CheckFailed?
  {
    match CheckForUpdate(bundle, repo)
    case UpToDate => CheckCallback(false, None)
    case Available(_, _) => CheckCallback(true, None)
    case CheckFailed(e) => CheckCallback(false, Some(e))
  }

  /** What each step of an update produces: downloading the zipped bundle of a
      triple, unzipping an archive into a temporary bundle, validating that
      bundle (structural checks and the caller's custom validator), and moving
      it over the installed bundle's path. */
  datatype UpdateSteps = UpdateSteps(
    download: ModelIdentifier -> Result<string, UpdateError>,
    unzip: string -> Result<ModelBundle, UpdateError>,
    validate: string -> Option<UpdateError>,
    replace: (string, string) -> Option<UpdateError>)

  /** The unzipped bundle that an update moves over the installed one: the
      check finds an update, the archive of its target triple downloads, it
      unzips, the unzipped bundle validates and the move succeeds. `None` if
      any of these does not happen. */
  function Installed(bundle: ModelBundle, repo: Repository, steps: UpdateSteps): Option<ModelBundle>
  {
    match CheckForUpdate(bundle, repo)
    case Available(_, target) =>
      if steps.download(target).Success?
         && steps.unzip(steps.download(target).value).Success?
         && var unzipped := steps.unzip(steps.download(target).value).value;
            steps.validate(unzipped.path).None? && steps.replace(unzipped.path, bundle.path).None?
      then Some(steps.unzip(steps.download(target).value).value)
      else None
    case _ => None
  }

  /** The arguments `updateWithValidator:callback:` passes to its callback. */
  datatype UpdateCallback = UpdateCallback(updated: bool, updatedBundleURL: Option<string>, error: Option<UpdateError>)

  /** `updateWithValidator:callback:`: the callback's arguments and the bundle
      found at the installed path afterwards. */
  function Update(bundle: ModelBundle, repo: Repository, steps: UpdateSteps): (r: (UpdateCallback, ModelBundle))
    ensures r.1.path == bundle.path
    ensures r.0.updated ==> r.0.error == None && r.0.updatedBundleURL == Some(bundle.path)
    ensures r.0.updated ==> CheckForUpdate(bundle, repo).Available?
    ensures !r.0.updated ==> r.1 == bundle && r.0.updatedBundleURL == None
    ensures (!r.0.updated && r.0.error == None) <==> CheckForUpdate(bundle, repo).UpToDate?
    ensures Parse(bundle.identifier).None? ==> !r.0.updated && r.0.error.Some?
    ensures CheckForUpdate(bundle, repo).CheckFailed? ==> r.0.error == Some(CheckForUpdate(bundle, repo).error)
    ensures r.0.updated <==> Installed(bundle, repo, steps).Some?
    ensures r.0.updated ==> r.1 == ModelBundle(bundle.path, Installed(bundle, repo, steps).value.identifier)
    ensures CheckForUpdate(bundle, repo).Available? && steps.download(CheckForUpdate(bundle, repo).target).Failure? ==>
              r.0.error == Some(steps.download(CheckForUpdate(bundle, repo).target).error)
  {
    match CheckForUpdate(bundle, repo)
    case UpToDate => (UpdateCallback(false, None, None), bundle)
    case CheckFailed(e) => (UpdateCallback(false, None, Some(e)), bundle)
    case Available(_, target) =>
      match steps.download(target)
      case Failure(e) => (UpdateCallback(false, None, Some(e)), bundle)
      case Success(archive) =>
        match steps.unzip(archive)
        case Failure(e) => (UpdateCallback(false, None, Some(e)), bundle)
        case Success(unzipped) =>
          match steps.validate(unzipped.path)
          case Some(e) => (UpdateCallback(false, None, Some(e)), bundle)
          case None =>
            match steps.replace(unzipped.path, bundle.path)
            case Some(e) => (UpdateCallback(false, None, Some(e)), bundle)
            case None => (UpdateCallback(true, Some(bundle.path), None), ModelBundle(bundle.path, unzipped.identifier))
  }

  /** A bundle that already declares the model's canonical hyperparameters and
      checkpoint has no update: the check reports no update and no error, and
      an update leaves it as it is without touching the download step. */
  lemma CurrentBundleHasNoUpdate(bundle: ModelBundle, repo: Repository, steps: UpdateSteps, id: ModelIdentifier)
    requires WellFormed(id) && bundle.identifier == Render(id)
    requires repo.getModel(id.modelId).Success?
    requires repo.getModel(id.modelId).value.canonicalHyperparameters == id.hyperparametersId
    requires repo.getHyperparameter(id.modelId, id.hyperparametersId).Success?
    requires repo.getHyperparameter(id.modelId, id.hyperparametersId).value.canonicalCheckpoint == id.checkpointId
    ensures CheckForUpdateCallback(bundle, repo) == CheckCallback(false, None)
    ensures Update(bundle, repo, steps) == (UpdateCallback(false, None, None), bundle)
  {
    ParseRender(id);
  }

  /** After an update whose unzipped bundle declares the target triple, the
      installed bundle is current: checking again finds no update. */
  lemma UpdateReachesCanonical(bundle: ModelBundle, repo: Repository, steps: UpdateSteps)
    requires Update(bundle, repo, steps).0.updated
    requires WellFormed(CheckForUpdate(bundle, repo).target)
    requires Installed(bundle, repo, steps).value.identifier == Render(CheckForUpdate(bundle, repo).target)
    ensures CheckForUpdate(Update(bundle, repo, steps).1, repo) == UpToDate
  {
    var target := CheckForUpdate(bundle, repo).target;
    ParseRender(target);
  }
}
