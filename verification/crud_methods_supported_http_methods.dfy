/**
 * The HTTP-method policy of a repository-backed REST resource: which request
 * methods a collection resource or an item resource accepts, given which of
 * the repository's CRUD methods (save, delete, find-one, find-all) are
 * exported.
 */
module CrudMethodsSupportedHttpMethods {

  import opened Wrappers
  import opened HttpMethods

  // ---------------------------------------------------------------------------
  // Repository metadata, as far as the policy reads it
  // ---------------------------------------------------------------------------

  /** The `@RestResource` annotation, reduced to its `exported` attribute. */
  datatype RestResource = RestResource(exported: bool)

  /**
   * A repository method, reduced to what the annotation lookup finds on it:
   * `None` when the method carries no `@RestResource` annotation.
   */
  datatype RepositoryMethod = RepositoryMethod(restResource: Option<RestResource>)

  /** The repository's CRUD methods; `None` where the repository does not declare one. */
  datatype CrudMethods = CrudMethods(
    saveMethod: Option<RepositoryMethod>,
    deleteMethod: Option<RepositoryMethod>,
    findOneMethod: Option<RepositoryMethod>,
    findAllMethod: Option<RepositoryMethod>)

  /** The four exposure answers the policy consults (`ExposureAwareCrudMethods`). */
  datatype ExposureAwareCrudMethods = ExposureAwareCrudMethods(
    exposesSave: bool,
    exposesDelete: bool,
    exposesFindOne: bool,
    exposesFindAll: bool)

  /** The shape of a resource. `OtherResourceType` stands for any shape the policy has no rule for. */
  datatype ResourceType = Collection | Item | OtherResourceType

  /** The one error the policy raises: a resource type without a rule. */
  datatype Error = UnsupportedResourceType(resourceType: ResourceType)

  // ---------------------------------------------------------------------------
  // Exposure of a single repository method
  // ---------------------------------------------------------------------------

  /**
   * Reference definition of exposure: the repository declares the method and
   * no annotation explicitly marks it as not exported.
   */
  predicate Exported(repositoryMethod: Option<RepositoryMethod>)
  {
    repositoryMethod.Some? && repositoryMethod.value.restResource != Some(RestResource(false))
  }

  /** Whether a (possibly missing) repository method is exposed over HTTP. */
  function Exposes(repositoryMethod: Option<RepositoryMethod>): (r: bool)
    ensures r <==> Exported(repositoryMethod)
    ensures repositoryMethod.None? ==> !r
    ensures repositoryMethod.Some? && repositoryMethod.value.restResource.None? ==> r
    ensures repositoryMethod.Some? && repositoryMethod.value.restResource.Some? ==> r == repositoryMethod.value.restResource.value.exported
  {
    match repositoryMethod
    case None => false
    case Some(m) =>
      match m.restResource
      case None => true
      case Some(annotation) => annotation.exported
  }

  /**
   * The exposure answers derived from a repository's CRUD methods
   * (`DefaultExposureAwareCrudMethods` and its four `exposesX` queries).
   */
  function DefaultExposureAwareCrudMethods(crudMethods: CrudMethods): (e: ExposureAwareCrudMethods)
    ensures e.exposesSave <==> Exported(crudMethods.saveMethod)
    ensures e.exposesDelete <==> Exported(crudMethods.deleteMethod)
    ensures e.exposesFindOne <==> Exported(crudMethods.findOneMethod)
    ensures e.exposesFindAll <==> Exported(crudMethods.findAllMethod)
  {
    ExposureAwareCrudMethods(
      Exposes(crudMethods.saveMethod),
      Exposes(crudMethods.deleteMethod),
      Exposes(crudMethods.findOneMethod),
      Exposes(crudMethods.findAllMethod))
  }

  // ---------------------------------------------------------------------------
  // The policy
  // ---------------------------------------------------------------------------

  /**
   * The supported-HTTP-methods policy of one repository. It is created from
   * the repository's CRUD methods as
   * `CrudMethodsSupportedHttpMethods(DefaultExposureAwareCrudMethods(crudMethods))`.
   */
  datatype CrudMethodsSupportedHttpMethods = CrudMethodsSupportedHttpMethods(exposedMethods: ExposureAwareCrudMethods)
  {
    /**
     * Reference rule, verb by verb: may `verb` be used on a resource of
     * shape `resourceType`? OPTIONS on every shape with a rule; reads need the matching finder;
     * POST (create) needs save on the collection; PUT and PATCH need save on
     * the item; DELETE needs both delete and find-one; TRACE never.
     */
    predicate Allows(verb: HttpMethod, resourceType: ResourceType)
    {
      match verb
      case OPTIONS => resourceType != OtherResourceType
      case GET | HEAD =>
        (resourceType == Collection && exposedMethods.exposesFindAll)
        || (resourceType == Item && exposedMethods.exposesFindOne)
      case POST => resourceType == Collection && exposedMethods.exposesSave
      case PUT | PATCH => resourceType == Item && exposedMethods.exposesSave
      case DELETE => resourceType == Item && exposedMethods.exposesDelete && exposedMethods.exposesFindOne
      case TRACE => false
    }

    /** The set of methods supported on a resource of the given type, or the error for an unsupported type. */
    function MethodsFor(resourceType: ResourceType): (r: Result<set<HttpMethod>, Error>)
      ensures r.Failure? <==> resourceType == OtherResourceType
      ensures r.Failure? ==> r.error == UnsupportedResourceType(resourceType)
      ensures r.Success? ==> forall verb :: verb in r.value <==> Allows(verb, resourceType)
    {
      var e := exposedMethods;
      match resourceType
      case Collection =>
        Success({OPTIONS}
                + (if e.exposesFindAll then {GET, HEAD} else {})
                + (if e.exposesSave then {POST} else {}))
      case Item =>
        Success({OPTIONS}
                + (if e.exposesDelete && e.exposesFindOne then {DELETE} else {})
                + (if e.exposesFindOne then {GET, HEAD} else {})
                + (if e.exposesSave then {PUT, PATCH} else {}))
      case OtherResourceType => Failure(UnsupportedResourceType(resourceType))
    }

    /** `getMethodsFor`: builds the set of supported methods one addition at a time. */
    method GetMethodsFor(resourceType: ResourceType) returns (r: Result<set<HttpMethod>, Error>)
      ensures r.Failure? <==> resourceType == OtherResourceType
      ensures r.Success? ==> forall verb :: verb in r.value <==> Allows(verb, resourceType)
      ensures r == MethodsFor(resourceType)
    {
      var methods: set<HttpMethod> := {};
      methods := methods + {OPTIONS};

      match resourceType {
        case Collection =>
          if exposedMethods.exposesFindAll {
            methods := methods + {GET};
            methods := methods + {HEAD};
          }
          if exposedMethods.exposesSave {
            methods := methods + {POST};
          }
        case Item =>
          if exposedMethods.exposesDelete && exposedMethods.exposesFindOne {
            methods := methods + {DELETE};
          }
          if exposedMethods.exposesFindOne {
            methods := methods + {GET};
            methods := methods + {HEAD};
          }
          if exposedMethods.exposesSave {
            methods := methods + {PUT};
            methods := methods + {PATCH};
          }
        case OtherResourceType =>
          return Failure(UnsupportedResourceType(resourceType));
      }

      r := Success(methods);
      forall verb
        ensures verb in methods <==> verb in MethodsFor(resourceType).value
      {
        match verb
        case GET => case HEAD => case POST => case PUT =>
        case PATCH => case DELETE => case OPTIONS => case TRACE =>
      }
      assert methods == MethodsFor(resourceType).value;
    }

    /** `supports`: whether `verb` may be used on a resource of the given type. */
    function Supports(verb: HttpMethod, resourceType: ResourceType): (r: Result<bool, Error>)
      ensures r.Failure? <==> resourceType == OtherResourceType
      ensures r.Failure? ==> r.error == UnsupportedResourceType(resourceType)
      ensures r.Success? ==> (r.value <==> Allows(verb, resourceType))
    {
      match MethodsFor(resourceType)
      case Success(methods) => Success(verb in methods)
      case Failure(error) => Failure(error)
    }
  }

  // ---------------------------------------------------------------------------
  // Properties of the policy
  // ---------------------------------------------------------------------------

  /** OPTIONS is supported on every resource type the policy has a rule for, whatever is exposed. */
  lemma OptionsAlwaysSupported(policy: CrudMethodsSupportedHttpMethods, resourceType: ResourceType)
    requires resourceType != OtherResourceType
    ensures policy.MethodsFor(resourceType).Success?
    ensures OPTIONS in policy.MethodsFor(resourceType).value
  {
  }

  /** The collection rules: reads follow find-all, POST follows save, nothing else but OPTIONS. */
  lemma CollectionMethods(policy: CrudMethodsSupportedHttpMethods)
    ensures policy.MethodsFor(Collection).Success?
    ensures var methods := policy.MethodsFor(Collection).value;
      && (GET in methods <==> policy.exposedMethods.exposesFindAll)
      && (HEAD in methods <==> policy.exposedMethods.exposesFindAll)
      && (POST in methods <==> policy.exposedMethods.exposesSave)
      && methods <= {OPTIONS, GET, HEAD, POST}
  {
  }

  /** The item rules: reads follow find-one, PUT and PATCH follow save, DELETE needs delete and find-one. */
  lemma ItemMethods(policy: CrudMethodsSupportedHttpMethods)
    ensures policy.MethodsFor(Item).Success?
    ensures var methods := policy.MethodsFor(Item).value;
      && (GET in methods <==> policy.exposedMethods.exposesFindOne)
      && (HEAD in methods <==> policy.exposedMethods.exposesFindOne)
      && (PUT in methods <==> policy.exposedMethods.exposesSave)
      && (PATCH in methods <==> policy.exposedMethods.exposesSave)
      && (DELETE in methods <==> policy.exposedMethods.exposesDelete && policy.exposedMethods.exposesFindOne)
      && methods <= {OPTIONS, GET, HEAD, PUT, PATCH, DELETE}
  {
  }

  /** GET and HEAD always come together, on both shapes. */
  lemma GetIffHead(policy: CrudMethodsSupportedHttpMethods, resourceType: ResourceType)
    requires policy.MethodsFor(resourceType).Success?
    ensures GET in policy.MethodsFor(resourceType).value <==> HEAD in policy.MethodsFor(resourceType).value
  {
  }

  /** An item that can be deleted can also be read. */
  lemma DeleteImpliesGet(policy: CrudMethodsSupportedHttpMethods)
    ensures policy.MethodsFor(Item).Success?
    ensures DELETE in policy.MethodsFor(Item).value ==> GET in policy.MethodsFor(Item).value
  {
  }

  /** `supports` is membership in the set `getMethodsFor` returns, and fails exactly when it fails. */
  lemma SupportsIsMembership(policy: CrudMethodsSupportedHttpMethods, verb: HttpMethod, resourceType: ResourceType)
    ensures policy.Supports(verb, resourceType).Success? <==> policy.MethodsFor(resourceType).Success?
    ensures policy.MethodsFor(resourceType).Success? ==>
      (policy.Supports(verb, resourceType).value <==> verb in policy.MethodsFor(resourceType).value)
  {
  }

  /** Exposing more CRUD methods never withdraws a supported HTTP verb. */
  lemma MoreExposureNeverRemovesMethods(
    policy: CrudMethodsSupportedHttpMethods, wider: CrudMethodsSupportedHttpMethods, resourceType: ResourceType)
    requires resourceType != OtherResourceType
    requires policy.exposedMethods.exposesSave ==> wider.exposedMethods.exposesSave
    requires policy.exposedMethods.exposesDelete ==> wider.exposedMethods.exposesDelete
    requires policy.exposedMethods.exposesFindOne ==> wider.exposedMethods.exposesFindOne
    requires policy.exposedMethods.exposesFindAll ==> wider.exposedMethods.exposesFindAll
    ensures policy.MethodsFor(resourceType).value <= wider.MethodsFor(resourceType).value
  {
  }

  /**
   * The supported methods reveal the exposure that matters: two policies that
   * support the same methods on both shapes agree on save, find-one and
   * find-all, and on delete whenever find-one is exposed.
   */
  lemma SupportedMethodsDetermineExposure(policy: CrudMethodsSupportedHttpMethods, other: CrudMethodsSupportedHttpMethods)
    requires policy.MethodsFor(Collection) == other.MethodsFor(Collection)
    requires policy.MethodsFor(Item) == other.MethodsFor(Item)
    ensures policy.exposedMethods.exposesSave == other.exposedMethods.exposesSave
    ensures policy.exposedMethods.exposesFindOne == other.exposedMethods.exposesFindOne
    ensures policy.exposedMethods.exposesFindAll == other.exposedMethods.exposesFindAll
    ensures policy.exposedMethods.exposesFindOne ==>
      policy.exposedMethods.exposesDelete == other.exposedMethods.exposesDelete
  {
  }

  /** An item whose repository exports save, find-one and find-all but not delete. */
  lemma ItemWithoutDeleteExample()
    ensures CrudMethodsSupportedHttpMethods(ExposureAwareCrudMethods(true, false, true, true)).MethodsFor(Item)
      == Success({OPTIONS, GET, HEAD, PUT, PATCH})
  {
    var methods := CrudMethodsSupportedHttpMethods(ExposureAwareCrudMethods(true, false, true, true)).MethodsFor(Item).value;
    forall verb
      ensures verb in methods <==> verb in {OPTIONS, GET, HEAD, PUT, PATCH}
    {
      match verb
      case GET => case HEAD => case POST => case PUT =>
      case PATCH => case DELETE => case OPTIONS => case TRACE =>
    }
    assert methods == {OPTIONS, GET, HEAD, PUT, PATCH};
  }

  /** The collection of the same repository. */
  lemma CollectionExample()
    ensures CrudMethodsSupportedHttpMethods(ExposureAwareCrudMethods(true, false, true, true)).MethodsFor(Collection)
      == Success({OPTIONS, GET, HEAD, POST})
  {
    var methods := CrudMethodsSupportedHttpMethods(ExposureAwareCrudMethods(true, false, true, true)).MethodsFor(Collection).value;
    forall verb
      ensures verb in methods <==> verb in {OPTIONS, GET, HEAD, POST}
    {
      match verb
      case GET => case HEAD => case POST => case PUT =>
      case PATCH => case DELETE => case OPTIONS => case TRACE =>
    }
    assert methods == {OPTIONS, GET, HEAD, POST};
  }

  /** DELETE on an item needs find-one as well as delete. */
  lemma DeleteNeedsFindOneExample(exposesSave: bool, exposesFindAll: bool)
    ensures CrudMethodsSupportedHttpMethods(ExposureAwareCrudMethods(exposesSave, true, false, exposesFindAll))
      .Supports(DELETE, Item) == Success(false)
  {
  }

  /** End to end: an unannotated, declared CRUD method is exposed; an `exported = false` one is not. */
  lemma AnnotationDecidesExposure(crudMethods: CrudMethods)
    requires crudMethods.findOneMethod == Some(RepositoryMethod(None))
    requires crudMethods.deleteMethod == Some(RepositoryMethod(Some(RestResource(false))))
    ensures CrudMethodsSupportedHttpMethods(DefaultExposureAwareCrudMethods(crudMethods)).Supports(GET, Item) == Success(true)
    ensures CrudMethodsSupportedHttpMethods(DefaultExposureAwareCrudMethods(crudMethods)).Supports(DELETE, Item) == Success(false)
  {
  }
}
