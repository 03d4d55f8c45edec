# Supported HTTP methods of a repository-backed REST resource

This project models `CrudMethodsSupportedHttpMethods` from Spring Data REST.
The class decides which HTTP request methods a REST resource accepts. A
resource is either a collection or a single item, and it is backed by a
repository. The decision depends on which of the repository's CRUD methods
(save, delete, find-one, find-all) are exposed. A CRUD method is exposed when
the repository declares it and no `@RestResource(exported = false)`
annotation hides it.

Modules:

- `Wrappers` (`wrappers.dfy`): `Option` and `Result`.
- `HttpMethods` (`http_method.dfy`): the request methods GET, HEAD, POST,
  PUT, PATCH, DELETE, OPTIONS and TRACE. These are the methods of section 4.3
  of RFC 7231, without CONNECT, plus PATCH from RFC 5789.
- `CrudMethodsSupportedHttpMethods` (`crud_methods_supported_http_methods.dfy`):
  - the repository metadata the policy reads;
  - exposure of a single method (`Exposes`);
  - the four exposure answers (`DefaultExposureAwareCrudMethods`);
  - the policy datatype with `MethodsFor` (the specification of
    `getMethodsFor`), `GetMethodsFor` (the step-by-step construction of the
    set) and `Supports`;
  - lemmas for the policy's properties.

Each operation is specified against an independent reference definition:

- `Exported` is the reference for exposure of one repository method.
- `Allows` is the per-verb rule table for the policy.

A resource type with no rule yields `Failure(UnsupportedResourceType(t))`.
This is the `IllegalArgumentException` of the `default` branch. In the model
that type is `OtherResourceType`.

## Model

| member | source | states |
|---|---|---|
| CrudMethodsSupportedHttpMethods.Exposes | spring-data-rest-core/src/main/java/org/springframework/data/rest/core/mapping/CrudMethodsSupportedHttpMethods.java:165-173 | A repository method is exposed exactly when it is declared and not annotated `exported = false`. A missing method gives false, an unannotated one true, and an annotated one the annotation's `exported` value. |
| CrudMethodsSupportedHttpMethods.DefaultExposureAwareCrudMethods | spring-data-rest-core/src/main/java/org/springframework/data/rest/core/mapping/CrudMethodsSupportedHttpMethods.java:118-163 | Each of `exposesSave`, `exposesDelete`, `exposesFindOne` and `exposesFindAll` holds exactly when the matching CRUD method is declared and not marked unexported. |
| CrudMethodsSupportedHttpMethods.CrudMethodsSupportedHttpMethods.MethodsFor | spring-data-rest-core/src/main/java/org/springframework/data/rest/core/mapping/CrudMethodsSupportedHttpMethods.java:68-113 | The call fails, with the resource type as the error, exactly for a type that is neither collection nor item. Otherwise a verb is in the result exactly when the per-verb rule table `Allows` permits it. |
| CrudMethodsSupportedHttpMethods.CrudMethodsSupportedHttpMethods.GetMethodsFor | spring-data-rest-core/src/main/java/org/springframework/data/rest/core/mapping/CrudMethodsSupportedHttpMethods.java:69-113 | The set built one `add` at a time holds exactly the verbs `Allows` permits, and it equals `MethodsFor`. An unsupported type returns the error instead of a set. |
| CrudMethodsSupportedHttpMethods.CrudMethodsSupportedHttpMethods.Supports | spring-data-rest-core/src/main/java/org/springframework/data/rest/core/mapping/CrudMethodsSupportedHttpMethods.java:55-62 | Fails exactly for an unsupported resource type. Otherwise it is true exactly when the rule table permits the verb on that type. |
| CrudMethodsSupportedHttpMethods.OptionsAlwaysSupported | spring-data-rest-core/src/main/java/org/springframework/data/rest/core/mapping/CrudMethodsSupportedHttpMethods.java:73-74 | OPTIONS is supported on collections and items for every combination of exposure flags. |
| CrudMethodsSupportedHttpMethods.CollectionMethods | spring-data-rest-core/src/main/java/org/springframework/data/rest/core/mapping/CrudMethodsSupportedHttpMethods.java:77-88 | On a collection, GET and HEAD are supported exactly when find-all is exposed, and POST exactly when save is exposed. The result is always within {OPTIONS, GET, HEAD, POST}, so PUT, PATCH, DELETE and TRACE never appear. |
| CrudMethodsSupportedHttpMethods.ItemMethods | spring-data-rest-core/src/main/java/org/springframework/data/rest/core/mapping/CrudMethodsSupportedHttpMethods.java:90-106 | On an item, GET and HEAD are supported exactly when find-one is exposed. PUT and PATCH are supported exactly when save is exposed. DELETE is supported exactly when both delete and find-one are exposed. POST and TRACE never appear. |
| CrudMethodsSupportedHttpMethods.GetIffHead | spring-data-rest-core/src/main/java/org/springframework/data/rest/core/mapping/CrudMethodsSupportedHttpMethods.java:79-98 | On both shapes, GET is supported if and only if HEAD is. |
| CrudMethodsSupportedHttpMethods.DeleteImpliesGet | spring-data-rest-core/src/main/java/org/springframework/data/rest/core/mapping/CrudMethodsSupportedHttpMethods.java:92-98 | An item that supports DELETE also supports GET. |
| CrudMethodsSupportedHttpMethods.SupportsIsMembership | spring-data-rest-core/src/main/java/org/springframework/data/rest/core/mapping/CrudMethodsSupportedHttpMethods.java:56-62 | `supports` fails exactly when `getMethodsFor` fails. Otherwise it is true exactly when the verb is a member of `getMethodsFor`'s set. |
| CrudMethodsSupportedHttpMethods.MoreExposureNeverRemovesMethods | spring-data-rest-core/src/main/java/org/springframework/data/rest/core/mapping/CrudMethodsSupportedHttpMethods.java:73-106 | Exposing more CRUD methods never removes a supported verb: the set of supported verbs is monotone in the four flags. |
| CrudMethodsSupportedHttpMethods.SupportedMethodsDetermineExposure | spring-data-rest-core/src/main/java/org/springframework/data/rest/core/mapping/CrudMethodsSupportedHttpMethods.java:73-106 | Two policies that support the same verbs on both shapes agree on save, find-one and find-all. They also agree on delete whenever find-one is exposed. |
| CrudMethodsSupportedHttpMethods.ItemWithoutDeleteExample | spring-data-rest-core/src/main/java/org/springframework/data/rest/core/mapping/CrudMethodsSupportedHttpMethods.java:90-106 | With save, find-one and find-all exposed and delete not exposed, an item supports exactly {OPTIONS, GET, HEAD, PUT, PATCH}. |
| CrudMethodsSupportedHttpMethods.CollectionExample | spring-data-rest-core/src/main/java/org/springframework/data/rest/core/mapping/CrudMethodsSupportedHttpMethods.java:77-88 | With the same flags, the collection supports exactly {OPTIONS, GET, HEAD, POST}. |
| CrudMethodsSupportedHttpMethods.DeleteNeedsFindOneExample | spring-data-rest-core/src/main/java/org/springframework/data/rest/core/mapping/CrudMethodsSupportedHttpMethods.java:92-94 | With delete exposed and find-one not exposed, `supports(DELETE, ITEM)` is false whatever save and find-all are. |
| CrudMethodsSupportedHttpMethods.AnnotationDecidesExposure | spring-data-rest-core/src/main/java/org/springframework/data/rest/core/mapping/CrudMethodsSupportedHttpMethods.java:142-173 | End to end: a declared, unannotated find-one method makes GET on an item supported. A delete method annotated `exported = false` makes DELETE on an item unsupported. |

## Left out

- Null arguments: the `Assert.notNull` checks (lines 46, 58-59 and 71) reject null CRUD methods, null verbs and null resource types. Dafny values cannot be null, so these precondition violations cannot arise in the model.
- The constructor (lines 44-49) is the datatype constructor applied to `DefaultExposureAwareCrudMethods(crudMethods)`. It has no separate member.
- Annotation lookup: `AnnotationUtils.findAnnotation` on a `java.lang.reflect.Method` (line 171) is reflection. A repository method is modelled by the outcome of that lookup: an optional `RestResource` carrying `exported`.
- `ResourceType`, `CrudMethods` and Spring's `HttpMethod` are declared as plain datatypes, because their sources are not part of this model. `ResourceType` has the variants `Collection` and `Item`, plus `OtherResourceType`, which stands for any resource type the policy has no rule for.
- The `SupportedHttpMethods` interface is not modelled. The `CrudMethodsSupportedHttpMethods` datatype stands for its one implementation here.
- The `ExposureAwareCrudMethods` interface (lines 179-208) is modelled as a datatype of four booleans, one per `exposesX` query.
- The error message text built with `String.format` (line 109) is not modelled. The error carries the offending resource type instead.
- `Collections.unmodifiableSet` and the identity of the `HashSet` (lines 73 and 112) are not modelled. An immutable Dafny `set` has the same observable contents.
- The verb set includes TRACE, because Spring's `HttpMethod` has it. The policy never permits it.
