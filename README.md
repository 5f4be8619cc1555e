# A verified model of the my_home front end

my_home is the Next.js front end of a housing-loan origination system for Peru.
Advisers use it to register customers and properties. They check a customer's
eligibility for the state programmes (Nuevo Crédito MiVivienda and Techo Propio)
and their bonos (subsidies), and they run a five-step wizard that builds and saves
a loan simulation. The backend computes every financial figure. What the front end
itself decides, and what this project models and proves, is:

- **The simulation wizard** (`simulation_wizard.dfy`, app/simulations/new/page.tsx).
  - It is a class over the wizard's fields: step, form, eligibility snapshot, generated simulation and the `formModified` flag.
  - It has the four step guards, the step-2 totals (with their `forEach` loops as methods proved against recursive specifications) and the selection cascades.
  - It models delete-before-create generation, save and cancel, with every call to the simulation service recorded in a log.
  - It models which footer button is shown and enabled.
- **The enum decoder** (`enum_mapper.dfy`, mappers/enum.mapper.ts).
  - It decodes a string to an enum member by trimming and upper-casing, with a fallback.
  - It is proved against an independent specification (`Decoded`), and it round-trips with the encoder.
  - Each of the nineteen string enums of types/*.ts is instantiated in its `*_types.dfy` module, with a proof that it is well formed.
- **The DTO mappers** (`*_mapper.dfy`, mappers/*.mapper.ts).
  - They are pure decoders with their defaults, conditional nulls and enum fallbacks, and encoders for the create requests.
  - They come with round-trip, "copied unchanged" and length-and-order lemmas.
- **The authentication reducer** (`auth_context.dfy`, context/AuthContext.tsx).
  - It has its four actions and the invariant "authenticated implies a user and a token".
  - The mount, sign-in and sign-out dispatch sequences are modelled, with a provider class over the reducer state and the stored values.
- **The list pages** (`properties_page.dfy`, `customers_page.dfy`, `simulations_page.dfy`, `pagination.dfy`).
  - They have order-preserving conjunctive filters. The property filter chain is a method proved equal to a single specification filter.
  - They have the page count `max(1, ceil(n / size))` and page slices, proved to cover the list exactly once.
  - Their pager buttons are proved to stay in range.
  - The customer list builds its eligibility map.
- **The intake forms** (`new_customer_page.dfy`, `new_property_page.dfy`).
  - They have step validators and trim-or-null normalisation.
  - The customer form has its conditional spouse fields; the property form has the comma-list features parser (with a split/join round trip) and the image size check.
- **Small helpers**: `BaseService.buildUrl` and the error message of `request` (`base_service.dfy`), and the redirect decision of `middleware.ts` (`middleware.dfy`).

Four modules model the JavaScript built-ins the code relies on:

- `Text`: `trim`, ASCII case folding, `includes`, `split` and `join`.
- `Numbers`: `parseFloat`, `parseInt`, `Number` and `String` on decimal notation.
- `Seqs`: `filter`, `map` and `find`.
- `Wrappers`: `Option` and JavaScript truthiness.

Backend answers are parameters of the handlers: `None`, or `false`, stands for a call that throws. Each handler runs to completion in one call.

## Model

| member | source | states |
|---|---|---|
| Middleware.Middleware | middleware.ts:3-20 | redirect to "/login" exactly when there is no token and the path is not a login route; to "/dashboard" exactly when there is a token and the path is a login route; pass through exactly when the two flags differ |
| Middleware.NoCookieGoesToLogin | middleware.ts:4-12 | with no cookie header every path except a login route is redirected to "/login" |
| Middleware.DependsOnlyOnFlags | middleware.ts:8-19 | the decision depends on nothing but the token flag and the route kind |
| Middleware.LoginSubpaths | middleware.ts:8 | every path beginning with "/login" is a login route |
| Middleware.TokenAnywhere | middleware.ts:4 | a cookie header holding "token=" at any position counts as carrying a token |
| BaseService.Service.constructor | services/base.service.ts:1-10 | a service starts with the fixed API root and the endpoint its subclass sets |
| BaseService.Service.ResourcePath | services/base.service.ts:12-14 | the resource path begins with the API root and what follows the root is exactly the endpoint |
| BaseService.StripTrailingSlashes | services/base.service.ts:17 | the result is a prefix of the input, does not end in '/', and only '/' characters were removed |
| BaseService.StripLeadingSlashes | services/base.service.ts:18 | the result is a suffix of the input, does not start with '/', and only '/' characters were removed |
| BaseService.JoinOneSlash | services/base.service.ts:17-20 | the joined location is the cleaned base, exactly one '/', then the cleaned path; neither side keeps a '/' next to the joining one |
| BaseService.Service.BuildUrl | services/base.service.ts:16-31 | the location is the joined path; with no query there are no search parameters, otherwise the parameters are the present entries of the query, in order |
| BaseService.AppendParams | services/base.service.ts:22-28 | the loop appends, in order, the text form of exactly the entries whose value is neither undefined nor null |
| BaseService.QueryParamsSnoc | services/base.service.ts:23-26 | one more entry adds one parameter when present and none otherwise |
| BaseService.AllPresentAllSent | services/base.service.ts:22-28 | a query with no null or undefined value sends every entry in order |
| BaseService.QueryParamsMember | services/base.service.ts:24-25 | every present entry is sent; an undefined or null entry is not |
| BaseService.RequestOutcome | services/base.service.ts:45-54 | an ok response resolves with its body; otherwise it throws the body's "message" field as text when the body is an object holding one, else "Error en la solicitud (status)" |
| BaseService.StringMessageVerbatim | services/base.service.ts:46-48 | a string "message" is thrown unchanged |
| BaseService.FallbackNamesStatus | services/base.service.ts:49 | the fallback message ends in ')' and the text between the parentheses parses back to the status |
| AuthContext.SetAuthAuthenticates | context/AuthContext.tsx:32-40 | `SET_AUTH` records the user and the token, sets `isAuthenticated`, clears `loading` and the error |
| AuthContext.LogoutResets | context/AuthContext.tsx:22-42 | `LOGOUT` yields `initialState` from any state |
| AuthContext.SetErrorOnlyError | context/AuthContext.tsx:43-44 | `SET_ERROR` sets the error and leaves every other field as it was |
| AuthContext.SetLoadingOnlyLoading | context/AuthContext.tsx:45-46 | `SET_LOADING` sets the loading flag and leaves every other field as it was |
| AuthContext.ReducePreservesInv | context/AuthContext.tsx:22-49 | `initialState` satisfies "authenticated implies a user and a token", and every action whose token is present preserves it |
| AuthContext.RunPreservesInv | context/AuthContext.tsx:22-49 | any sequence of such actions preserves the invariant |
| AuthContext.RunAppend | context/AuthContext.tsx:63 | dispatching two sequences one after the other is dispatching their concatenation |
| AuthContext.RunPair | context/AuthContext.tsx:63 | dispatching two actions is reducing twice |
| AuthContext.MountDispatches | context/AuthContext.tsx:67-74 | the mount effect dispatches at most one action, a `SET_AUTH` of the stored user and token, exactly when both are stored (the token non-empty) |
| AuthContext.MountRestores | context/AuthContext.tsx:67-74 | without both stored values mount changes nothing; with both the session is restored and satisfies the invariant |
| AuthContext.SignInMessage | context/AuthContext.tsx:85-89 | the message of a thrown `Error`, otherwise "Error al iniciar sesión" |
| AuthContext.FailedSignInKeepsLoading | context/AuthContext.tsx:77-95 | a failed sign-in leaves `loading` true, records the message and keeps user, token and authentication unchanged |
| AuthContext.SignInAuthenticates | context/AuthContext.tsx:76-83 | a successful sign-in authenticates the returned user with whatever token storage held, and clears loading and the error |
| AuthContext.SignOutThenSignIn | context/AuthContext.tsx:99-102 | signing out yields the initial state from any state, so a later sign-in behaves as from a fresh start |
| AuthContext.SignInWithoutStoredToken | context/AuthContext.tsx:80-83 | as written, a sign-in that reads no token back ends authenticated without a token, breaking the invariant |
| AuthContext.SignInDispatchesFixed | context/AuthContext.tsx:76-96 | the corrected sign-in dispatches loading on and then one action carrying a token |
| AuthContext.SignInFixedKeepsInv | context/AuthContext.tsx:76-96 | the corrected sign-in keeps the invariant from any state that has it, and a success authenticates the returned user |
| AuthContext.AuthProvider.constructor | context/AuthContext.tsx:63 | the provider starts in `initialState` over the given storage contents |
| AuthContext.AuthProvider.Dispatch | context/AuthContext.tsx:63 | the state becomes the reducer's result; storage is untouched |
| AuthContext.AuthProvider.Mount | context/AuthContext.tsx:67-74 | the state is the run of the mount dispatches from the previous state; storage is untouched |
| AuthContext.AuthProvider.SignIn | context/AuthContext.tsx:76-96 | the state is the run of the sign-in dispatches for the given outcome; storage is untouched |
| AuthContext.AuthProvider.SignOut | context/AuthContext.tsx:99-102 | storage is cleared and the state is `initialState` |
| EnumMapper.FindIndex | mappers/enum.mapper.ts:14-17 | the index found is the first entry whose key or value, upper-cased, equals the normalised input; none is found exactly when no entry matches |
| EnumMapper.MapStringToEnum | mappers/enum.mapper.ts:2-25 | the result is always the default or a member of the enum; a null, undefined or empty input gives the default |
| EnumMapper.CanonicalUpper | mappers/enum.mapper.ts:12-16 | a canonical member name is unchanged by upper-casing and by trimming |
| EnumMapper.Recognizes | mappers/enum.mapper.ts:12-20 | an input that, trimmed and upper-cased, is a member's name decodes to that member, whatever its case and surrounding white space |
| EnumMapper.Rejects | mappers/enum.mapper.ts:19-24 | an input that names no member decodes to the default |
| EnumMapper.BlankIsDefault | mappers/enum.mapper.ts:12-24 | a white-space-only input decodes to the default |
| EnumMapper.RoundTrip | mappers/enum.mapper.ts:12-29 | decoding `mapEnumToString(v)` gives back `v` |
| EnumMapper.Idempotent | mappers/enum.mapper.ts:12-21 | decoding the string of a decoded value gives the same value |
| EnumMapper.EntriesOf | mappers/enum.mapper.ts:14-15 | the entries of a string enum are its members in declaration order, keyed by their names |
| EnumMapper.EnumWellFormed | mappers/enum.mapper.ts:14-16 | a member list with distinct canonical names that lists every member yields a well-formed enum in which every member is listed |
| EnumMapper.DecodedOwnName | mappers/enum.mapper.ts:12-20 | an input that is a member's own name can only decode to that member |
| EnumMapper.DecodeSpec | mappers/enum.mapper.ts:2-25 | on every input the decoder returns the member the input names, or the default when it names none |
| CustomerTypes.CustomerStatusWellFormed | types/customer.types.ts:2-6 | `CustomerStatusEnum` is a string enum whose keys equal their values, with distinct canonical names, listing every member |
| CustomerTypes.CustomerStatusFrom | mappers/enum.mapper.ts:2-25 | decoding into `CustomerStatusEnum` gives the member the input names (trimmed, case-insensitive), or the default when it names none |
| CustomerTypes.CustomerStatusFromName | mappers/enum.mapper.ts:12-29 | decoding the string of any `CustomerStatusEnum` member gives that member back |
| CustomerTypes.MaritalStatusWellFormed | types/customer.types.ts:8-14 | `MaritalStatusEnum` is a string enum whose keys equal their values, with distinct canonical names, listing every member |
| CustomerTypes.MaritalStatusFrom | mappers/enum.mapper.ts:2-25 | decoding into `MaritalStatusEnum` gives the member the input names (trimmed, case-insensitive), or the default when it names none |
| CustomerTypes.MaritalStatusFromName | mappers/enum.mapper.ts:12-29 | decoding the string of any `MaritalStatusEnum` member gives that member back |
| CustomerTypes.EducationLevelWellFormed | types/customer.types.ts:16-22 | `EducationLevelEnum` is a string enum whose keys equal their values, with distinct canonical names, listing every member |
| CustomerTypes.EducationLevelFrom | mappers/enum.mapper.ts:2-25 | decoding into `EducationLevelEnum` gives the member the input names (trimmed, case-insensitive), or the default when it names none |
| CustomerTypes.EducationLevelFromName | mappers/enum.mapper.ts:12-29 | decoding the string of any `EducationLevelEnum` member gives that member back |
| CustomerTypes.EmploymentTypeWellFormed | types/customer.types.ts:24-29 | `EmploymentTypeEnum` is a string enum whose keys equal their values, with distinct canonical names, listing every member |
| CustomerTypes.EmploymentTypeFrom | mappers/enum.mapper.ts:2-25 | decoding into `EmploymentTypeEnum` gives the member the input names (trimmed, case-insensitive), or the default when it names none |
| CustomerTypes.EmploymentTypeFromName | mappers/enum.mapper.ts:12-29 | decoding the string of any `EmploymentTypeEnum` member gives that member back |
| CustomerTypes.FundOriginTypeWellFormed | types/customer.types.ts:31-38 | `FundOriginTypeEnum` is a string enum whose keys equal their values, with distinct canonical names, listing every member |
| CustomerTypes.FundOriginTypeFrom | mappers/enum.mapper.ts:2-25 | decoding into `FundOriginTypeEnum` gives the member the input names (trimmed, case-insensitive), or the default when it names none |
| CustomerTypes.FundOriginTypeFromName | mappers/enum.mapper.ts:12-29 | decoding the string of any `FundOriginTypeEnum` member gives that member back |
| FinancialInstitutionTypes.FinancialInstitutionsWellFormed | types/financial-institution.types.ts:2-28 | `FinancialInstitutionsEnum` is a string enum whose keys equal their values, with distinct canonical names, listing every member |
| FinancialInstitutionTypes.FinancialInstitutionsFrom | mappers/enum.mapper.ts:2-25 | decoding into `FinancialInstitutionsEnum` gives the member the input names (trimmed, case-insensitive), or the default when it names none |
| FinancialInstitutionTypes.FinancialInstitutionsFromName | mappers/enum.mapper.ts:12-29 | decoding the string of any `FinancialInstitutionsEnum` member gives that member back |
| LoanProgramTypes.LoanProgramsWellFormed | types/loan-program.types.ts:2-5 | `LoanProgramsEnum` is a string enum whose keys equal their values, with distinct canonical names, listing every member |
| LoanProgramTypes.LoanProgramsFrom | mappers/enum.mapper.ts:2-25 | decoding into `LoanProgramsEnum` gives the member the input names (trimmed, case-insensitive), or the default when it names none |
| LoanProgramTypes.LoanProgramsFromName | mappers/enum.mapper.ts:12-29 | decoding the string of any `LoanProgramsEnum` member gives that member back |
| LoanSimulationTypes.SimulationStatusWellFormed | types/loan-simulation.types.ts:2-7 | `SimulationStatusEnum` is a string enum whose keys equal their values, with distinct canonical names, listing every member |
| LoanSimulationTypes.SimulationStatusFrom | mappers/enum.mapper.ts:2-25 | decoding into `SimulationStatusEnum` gives the member the input names (trimmed, case-insensitive), or the default when it names none |
| LoanSimulationTypes.SimulationStatusFromName | mappers/enum.mapper.ts:12-29 | decoding the string of any `SimulationStatusEnum` member gives that member back |
| LoanSimulationTypes.CurrencyWellFormed | types/loan-simulation.types.ts:9-12 | `CurrencyEnum` is a string enum whose keys equal their values, with distinct canonical names, listing every member |
| LoanSimulationTypes.CurrencyFrom | mappers/enum.mapper.ts:2-25 | decoding into `CurrencyEnum` gives the member the input names (trimmed, case-insensitive), or the default when it names none |
| LoanSimulationTypes.CurrencyFromName | mappers/enum.mapper.ts:12-29 | decoding the string of any `CurrencyEnum` member gives that member back |
| LoanSimulationTypes.RateTypeWellFormed | types/loan-simulation.types.ts:14-17 | `RateTypeEnum` is a string enum whose keys equal their values, with distinct canonical names, listing every member |
| LoanSimulationTypes.RateTypeFrom | mappers/enum.mapper.ts:2-25 | decoding into `RateTypeEnum` gives the member the input names (trimmed, case-insensitive), or the default when it names none |
| LoanSimulationTypes.RateTypeFromName | mappers/enum.mapper.ts:12-29 | decoding the string of any `RateTypeEnum` member gives that member back |
| LoanSimulationTypes.CapitalizationPeriodWellFormed | types/loan-simulation.types.ts:19-27 | `CapitalizationPeriodEnum` is a string enum whose keys equal their values, with distinct canonical names, listing every member |
| LoanSimulationTypes.CapitalizationPeriodFrom | mappers/enum.mapper.ts:2-25 | decoding into `CapitalizationPeriodEnum` gives the member the input names (trimmed, case-insensitive), or the default when it names none |
| LoanSimulationTypes.CapitalizationPeriodFromName | mappers/enum.mapper.ts:12-29 | decoding the string of any `CapitalizationPeriodEnum` member gives that member back |
| LoanSimulationTypes.GraceTypeWellFormed | types/loan-simulation.types.ts:29-32 | `GraceTypeEnum` is a string enum whose keys equal their values, with distinct canonical names, listing every member |
| LoanSimulationTypes.GraceTypeFrom | mappers/enum.mapper.ts:2-25 | decoding into `GraceTypeEnum` gives the member the input names (trimmed, case-insensitive), or the default when it names none |
| LoanSimulationTypes.GraceTypeFromName | mappers/enum.mapper.ts:12-29 | decoding the string of any `GraceTypeEnum` member gives that member back |
| PropertyTypes.PropertyStatusWellFormed | types/property.types.ts:2-7 | `PropertyStatusEnum` is a string enum whose keys equal their values, with distinct canonical names, listing every member |
| PropertyTypes.PropertyStatusFrom | mappers/enum.mapper.ts:2-25 | decoding into `PropertyStatusEnum` gives the member the input names (trimmed, case-insensitive), or the default when it names none |
| PropertyTypes.PropertyStatusFromName | mappers/enum.mapper.ts:12-29 | decoding the string of any `PropertyStatusEnum` member gives that member back |
| PropertyTypes.FinishingQualityWellFormed | types/property.types.ts:9-14 | `FinishingQualityEnum` is a string enum whose keys equal their values, with distinct canonical names, listing every member |
| PropertyTypes.FinishingQualityFrom | mappers/enum.mapper.ts:2-25 | decoding into `FinishingQualityEnum` gives the member the input names (trimmed, case-insensitive), or the default when it names none |
| PropertyTypes.FinishingQualityFromName | mappers/enum.mapper.ts:12-29 | decoding the string of any `FinishingQualityEnum` member gives that member back |
| PropertyTypes.OrientationWellFormed | types/property.types.ts:16-25 | `OrientationEnum` is a string enum whose keys equal their values, with distinct canonical names, listing every member |
| PropertyTypes.OrientationFrom | mappers/enum.mapper.ts:2-25 | decoding into `OrientationEnum` gives the member the input names (trimmed, case-insensitive), or the default when it names none |
| PropertyTypes.OrientationFromName | mappers/enum.mapper.ts:12-29 | decoding the string of any `OrientationEnum` member gives that member back |
| PropertyTypes.PropertyTypeWellFormed | types/property.types.ts:27-34 | `PropertyTypeEnum` is a string enum whose keys equal their values, with distinct canonical names, listing every member |
| PropertyTypes.PropertyTypeFrom | mappers/enum.mapper.ts:2-25 | decoding into `PropertyTypeEnum` gives the member the input names (trimmed, case-insensitive), or the default when it names none |
| PropertyTypes.PropertyTypeFromName | mappers/enum.mapper.ts:12-29 | decoding the string of any `PropertyTypeEnum` member gives that member back |
| RoleTypes.RolesWellFormed | types/role.types.ts:2-4 | `RolesEnum` is a string enum whose keys equal their values, with distinct canonical names, listing every member |
| RoleTypes.RolesFrom | mappers/enum.mapper.ts:2-25 | decoding into `RolesEnum` gives the member the input names (trimmed, case-insensitive), or the default when it names none |
| RoleTypes.RolesFromName | mappers/enum.mapper.ts:12-29 | decoding the string of any `RolesEnum` member gives that member back |
| SubsidyTypes.SubsidyTypeWellFormed | types/subsidy.types.ts:2-9 | `SubsidyTypesEnum` is a string enum whose keys equal their values, with distinct canonical names, listing every member |
| SubsidyTypes.SubsidyTypeFrom | mappers/enum.mapper.ts:2-25 | decoding into `SubsidyTypesEnum` gives the member the input names (trimmed, case-insensitive), or the default when it names none |
| SubsidyTypes.SubsidyTypeFromName | mappers/enum.mapper.ts:12-29 | decoding the string of any `SubsidyTypesEnum` member gives that member back |
| UserTypes.AccountStatusWellFormed | types/user.types.ts:4-8 | `AccountStatusEnum` is a string enum whose keys equal their values, with distinct canonical names, listing every member |
| UserTypes.AccountStatusFrom | mappers/enum.mapper.ts:2-25 | decoding into `AccountStatusEnum` gives the member the input names (trimmed, case-insensitive), or the default when it names none |
| UserTypes.AccountStatusFromName | mappers/enum.mapper.ts:12-29 | decoding the string of any `AccountStatusEnum` member gives that member back |
| RoleMapper.MapRoleFromResponse | mappers/role.mapper.ts:5-12 | a missing id becomes ""; the name is the role the input names, ROLE_ADMINISTRATOR when it names none |
| RoleMapper.MapRolesFromResponse | mappers/role.mapper.ts:15-16 | same length, and each element is the mapping of the response at its position |
| RoleMapper.EveryRoleIsAdministrator | mappers/role.mapper.ts:7-11 | every mapped role name is ROLE_ADMINISTRATOR |
| SubsidyMapper.MapSubsidyFromResponse | mappers/subsidy.mapper.ts:4-13 | id, loan programme id and active flag are copied; the name is the subsidy the input names, BONO_BUEN_PAGADOR when it names none |
| SubsidyMapper.MapSubsidiesFromResponse | mappers/subsidy.mapper.ts:15-17 | same length, and each element is the mapping of the response at its position |
| SubsidyMapper.SubsidyRoundTrip | mappers/subsidy.mapper.ts:4-13 | a response carrying a subsidy's own fields and name maps back to that subsidy |
| LoanProgramMapper.MapLoanProgramFromResponse | mappers/loan-program.mapper.ts:5-14 | the id is copied; the name is the programme the input names, NUEVO_CREDITO_MIVIVIENDA when it names none |
| LoanProgramMapper.MapLoanProgramsFromResponse | mappers/loan-program.mapper.ts:16-18 | same length, and each element is the mapping of the response at its position |
| LoanProgramMapper.LoanProgramRoundTrip | mappers/loan-program.mapper.ts:5-14 | a response carrying a programme's own id and name maps back to that programme |
| LoanProgramMapper.NameIgnoresCaseAndSpace | mappers/loan-program.mapper.ts:9-13 | a name equal to a programme's once trimmed and upper-cased decodes to that programme |
| LoanProgramMapper.LowerCasePaddedName | mappers/loan-program.mapper.ts:9-13 | a programme's name in lower case with white space around it (" techo_propio ") decodes to that programme |
| UserMapper.MapRoleFromString | mappers/user.mapper.ts:6-9 | the id is ""; the name is the role the string names, ROLE_ADMINISTRATOR when it names none |
| UserMapper.DateOf | mappers/user.mapper.ts:22-25 | a date exists exactly when the text is present and non-empty, and then it is built from that text |
| UserMapper.MapUserFromResponse | mappers/user.mapper.ts:12-30 | id, email and username default to ""; the status is the one named, PENDING_ACTIVATION otherwise; failed attempts default to 0; the four dates follow `DateOf`; the profile flag is false, password and token are ""; missing roles become [], present ones keep their length and are mapped by name position by position |
| UserMapper.MapUsersFromResponse | mappers/user.mapper.ts:33-34 | same length, and each element is the mapping of the response at its position |
| UserMapper.MapUserToCreateRequest | mappers/user.mapper.ts:37-47 | email, username and district are copied; the roles keep their length and order and each is written by its name |
| UserMapper.CreateRequestRolesRoundTrip | mappers/user.mapper.ts:45 | the role names of a create request read back, through `mapRoleFromString`, as exactly the roles it was made from |
| UserMapper.RoleNameRoundTrip | mappers/user.mapper.ts:6-9 | a role written by its name reads back as that role |
| AuthenticationMapper.MapAuthenticatedUserFromResponse | mappers/authentication.mapper.ts:11-27 | id, email, username and token default to ""; the status is always ACTIVE, because "" names no member; password "", no failed attempts, no profile, no roles and no dates |
| AuthenticationMapper.MapRoleNames | mappers/authentication.mapper.ts:34-38 | missing roles become []; present ones keep their length and each is the role it names, ROLE_ADMINISTRATOR otherwise |
| AuthenticationMapper.MapResetCompletedPasswordFromResponse | mappers/authentication.mapper.ts:29-39 | user id and email default to ""; the roles are the decoded role names |
| AuthenticationMapper.MapSetCompletedInitialPasswordFromResponse | mappers/authentication.mapper.ts:41-51 | user id and email default to ""; the roles are the decoded role names |
| AuthenticationMapper.PasswordMappersAgree | mappers/authentication.mapper.ts:29-51 | the reset and set-initial mappers give the same result for the same fields |
| AuthenticationMapper.CompletedRolesAreAdministrator | mappers/authentication.mapper.ts:34-50 | every decoded role is ROLE_ADMINISTRATOR |
| FinancialInstitutionMapper.MapFinancialInstitutionFromResponse | mappers/financial-institution.mapper.ts:9-19 | id and active flag are copied; the name is the institution the input names, BCP when it names none |
| FinancialInstitutionMapper.MapFinancialInstitutionsFromResponse | mappers/financial-institution.mapper.ts:21-23 | same length, and each element is the mapping of the response at its position |
| FinancialInstitutionMapper.InstitutionRoundTrip | mappers/financial-institution.mapper.ts:9-19 | a response carrying an institution's own fields and name maps back to that institution |
| FinancialInstitutionMapper.MapRateRangeFromResponse | mappers/financial-institution.mapper.ts:26-32 | minimum rate, maximum rate and message are copied unchanged |
| FinancialInstitutionMapper.MapInstitutionRateFromResponse | mappers/financial-institution.mapper.ts:35-44 | every field is copied unchanged |
| FinancialInstitutionMapper.MapInstitutionRatesFromResponse | mappers/financial-institution.mapper.ts:46-48 | same length, and each element is the mapping of the response at its position |
| EligibilityMapper.MapBonoEligibilityFromResponse | mappers/eligibility.mapper.ts:14-28 | the type is the subsidy the input names, BONO_BUEN_PAGADOR when it names none; amount, currency, eligible, price range, reason and failure reason are copied unchanged |
| EligibilityMapper.MapBonos | mappers/eligibility.mapper.ts:37-52 | absent bonos become []; present ones keep their length and order, each mapped by position |
| EligibilityMapper.MapMiViviendaEligibilityFromResponse | mappers/eligibility.mapper.ts:31-40 | the verdict is copied, null reason lists become [], the bonos are mapped |
| EligibilityMapper.MapTechoPropioEligibilityFromResponse | mappers/eligibility.mapper.ts:43-53 | the verdict and the modality (null when absent) are copied, null reason lists become [], the bonos are mapped |
| EligibilityMapper.MapEligibilityFromResponse | mappers/eligibility.mapper.ts:56-62 | the customer id is copied and both programme verdicts are mapped |
| EligibilityMapper.MapEligibilityWithPropertyFromResponse | mappers/eligibility.mapper.ts:65-72 | customer and property ids are copied and both programme verdicts are mapped |
| EligibilityMapper.EligibleBonosKept | mappers/eligibility.mapper.ts:17-39 | a bono reported eligible stays eligible, in the same position, with the subsidy type it names |
| EligibilityMapper.BonoKept | mappers/eligibility.mapper.ts:17-24 | one eligible bono keeps its eligibility and the type it names |
| LoanSimulationMapper.MapMoney | mappers/loan-simulation.mapper.ts:27-30 | the amount is copied; the currency is the one named, PEN when none is |
| LoanSimulationMapper.MapInterestRate | mappers/loan-simulation.mapper.ts:33-39 | the rate is copied; the type is the one named, EFFECTIVE otherwise; the capitalisation period is absent exactly when the input is null or empty, and otherwise is the period named, MONTHLY when none is |
| LoanSimulationMapper.MapGracePeriod | mappers/loan-simulation.mapper.ts:42-45 | the duration is copied; the type is the one named, TOTAL otherwise |
| LoanSimulationMapper.MapParameters | mappers/loan-simulation.mapper.ts:48-56 | the three amounts, the rate and the grace period are mapped, the term is copied, the currency decoded with PEN as fallback, and the discount rate is never carried over |
| LoanSimulationMapper.MapInstallment | mappers/loan-simulation.mapper.ts:59-69 | id, number and due date are copied; all six amounts go through `mapMoney` |
| LoanSimulationMapper.MapSubsidy | mappers/loan-simulation.mapper.ts:72-78 | ids, name and simulation id are copied; the amount goes through `mapMoney` |
| LoanSimulationMapper.MapPaymentPlan | mappers/loan-simulation.mapper.ts:81-89 | ids, TCEA and TIR are copied, both amounts mapped, and the installments keep their length and order |
| LoanSimulationMapper.MapLoanSimulationStatus | mappers/loan-simulation.mapper.ts:100 | the status is the one named, DRAFT when none is |
| LoanSimulationMapper.MapLoanSimulationCopies | mappers/loan-simulation.mapper.ts:92-102 | ids and dates are copied, the parameters mapped, and the payment plan is present exactly when the response has one, then mapped |
| LoanSimulationMapper.MapLoanSimulationSubsidies | mappers/loan-simulation.mapper.ts:103 | the subsidies keep their length and order, each mapped by position |
| LoanSimulationMapper.MoneyRoundTrip | mappers/loan-simulation.mapper.ts:27-30 | an amount sent with its currency's own name maps back to the same amount |
| LoanSimulationMapper.InterestRateRoundTrip | mappers/loan-simulation.mapper.ts:33-39 | a rate sent with its own type and period names maps back to the same rate |
| CustomerMapper.NonZero | mappers/customer.mapper.ts:94-96 | the spouse income is kept exactly when it is present and not 0, and then unchanged |
| CustomerMapper.MapCustomerFromResponse | mappers/customer.mapper.ts:12-115 | flat identity, contact, address, residency, financial, credit and family fields are copied into their nested groups; status, marital status, education, employment type and fund origin are the members named, with ACTIVE, SINGLE, PRIMARY, DEPENDENT and OTHER as fallbacks; a null or 0 spouse income becomes null |
| CustomerMapper.MapCustomerToCreateRequest | mappers/customer.mapper.ts:118-173 | every non-enum field is copied unchanged and the four enums are written by name |
| CustomerMapper.CreateBodyEnumsRoundTrip | mappers/customer.mapper.ts:135-171 | the enum names in a create body decode back, whatever the fallback, to the request's own values |
| PropertyMapper.MapParking | mappers/property.mapper.ts:26-33 | missing counts and amounts become 0 and missing currencies "PEN"; there is parking exactly when the number of spaces, defaulting to 0, is positive |
| PropertyMapper.MapPricing | mappers/property.mapper.ts:71-89 | the list price defaults to 0 "PEN", the converted prices stay null when missing, areas and fees default to 0 and their currencies to "PEN" |
| PropertyMapper.MapFinanciability | mappers/property.mapper.ts:94-102 | the financeable amount defaults to 0 "PEN", both eligibility flags to false, the reason to null |
| PropertyMapper.MapSustainability | mappers/property.mapper.ts:112-116 | both flags default to false and the certification type to null |
| PropertyMapper.MapPropertyFromResponse | mappers/property.mapper.ts:11-117 | ids, code, counts and flags are copied; status, finishing and type are the members named, with AVAILABLE, STANDARD and APARTMENT as fallbacks; the facing is null exactly when the response's is null or empty, otherwise the orientation named, NORTH as fallback; features default to []; the nested blocks follow their mappers |
| PropertyMapper.MapPropertyToCreateRequest | mappers/property.mapper.ts:122-167 | the enums are written by name, the facing is null exactly when the request has none; null half bathrooms and floor become 0, other numbers pass through (0 included); a certification type is sent exactly when there is a certification and the type is non-empty |
| PropertyMapper.CreateBodyCopies | mappers/property.mapper.ts:126-162 | every other field of the create body is the request's own |
| PropertyMapper.CreateBodyEnumsRoundTrip | mappers/property.mapper.ts:136-144 | the enum names in a create body decode back to the request's own finishing, type and facing |
| NewCustomerPage.NextStep | app/customers/new/page.tsx:197-226 | from step 1 the next step is 2 exactly when first name, last name, email, phone, street and district are non-blank after trimming and a birth date is set, else 1; from step 2 it is 3 exactly when occupation and profession are non-blank and the three amounts are non-empty, else 2; from step 3 nothing changes |
| NewCustomerPage.PreviousStep | app/customers/new/page.tsx:228-230 | one step back, never below 1 |
| NewCustomerPage.TrimOrNull | app/customers/new/page.tsx:249 | null exactly when the text is blank, otherwise the trimmed text, which is non-empty and has no white space at either end |
| NewCustomerPage.TrimOrNullIdempotent | app/customers/new/page.tsx:249 | normalising an already-normalised optional text changes nothing |
| NewCustomerPage.SpouseText | app/customers/new/page.tsx:289-308 | a spouse text is sent exactly when the spouse section applies and the text is non-blank, and then trimmed |
| NewCustomerPage.NumberOrNull | app/customers/new/page.tsx:279-281 | an empty credit score is null; otherwise it is `Number` of the text |
| NewCustomerPage.Payload | app/customers/new/page.tsx:246-326 | marital status, fund origin and birth date pass through unchanged |
| NewCustomerPage.PayloadNormalised | app/customers/new/page.tsx:247-285 | names are sent trimmed; middle name, residence card, housing-support details and other fund origin are trimmed or null; the credit score is null when empty; amounts are `Number(...) \|\| 0` |
| NewCustomerPage.PayloadSpouse | app/customers/new/page.tsx:289-316 | each spouse text follows `SpouseText`; the spouse income is sent only when the section applies and the income is non-empty, and the spouse currency exactly then |
| NewCustomerPage.NoSpouseNoSpouseData | app/customers/new/page.tsx:289-316 | when the marital status is neither MARRIED nor COHABITING no spouse data is sent, whatever was typed |
| NewCustomerPage.PayloadTextsTrimmed | app/customers/new/page.tsx:249-325 | every optional text sent is non-empty where required and already trimmed |
| NewCustomerPage.Step1PassesSubmitCheck | app/customers/new/page.tsx:200-237 | a form that passed step 1 also passes the name check of the submission, and its payload names are non-empty |
| NewCustomerPage.CustomerIntake.constructor | app/customers/new/page.tsx:131-184 | the page starts on step 1 with `initialState`, not submitting, nothing sent |
| NewCustomerPage.CustomerIntake.UpdateForm | app/customers/new/page.tsx:193-195 | the form becomes the given one; nothing else changes |
| NewCustomerPage.CustomerIntake.Next | app/customers/new/page.tsx:197-226 | the step becomes `NextStep` of the step and form before the call; nothing else changes |
| NewCustomerPage.CustomerIntake.Back | app/customers/new/page.tsx:228-230 | the step becomes `PreviousStep`; nothing else changes |
| NewCustomerPage.CustomerIntake.Submit | app/customers/new/page.tsx:232-246 | ignored while submitting; with a blank first or last name the step becomes 1 and nothing is sent; otherwise submitting becomes true and exactly the payload of the current form is sent |
| NewCustomerPage.CustomerIntake.Send | app/customers/new/page.tsx:234-243 | the same three outcomes, given the name check already evaluated and the payload built |
| NewCustomerPage.CustomerIntake.Settle | app/customers/new/page.tsx:394-395 | once the service call has settled submitting is false; nothing else changes |
| NewPropertyPage.DefaultFormStaysOnStep1 | app/properties/new/page.tsx:139-147 | the default form, with its empty code and zero areas, never passes the step-1 guard |
| NewPropertyPage.ParseFeatures | app/properties/new/page.tsx:156-159 | every feature parsed from the comma list is non-empty, has no white space at either end and contains no comma |
| NewPropertyPage.CleanPieces | app/properties/new/page.tsx:156-158 | every trimmed piece of the comma split is tight and comma-free |
| NewPropertyPage.TrimmedPiece | app/properties/new/page.tsx:158 | trimming a comma-free piece yields a tight, comma-free string |
| NewPropertyPage.FeaturesInOrder | app/properties/new/page.tsx:156-159 | the features keep the order in which they were typed: they are a subsequence of the trimmed pieces |
| NewPropertyPage.ParseFeaturesRoundTrip | app/properties/new/page.tsx:156-159 | joining the parsed features with commas and parsing again gives the same features |
| NewPropertyPage.ProjectIdInput | app/properties/new/page.tsx:279-285 | the project id is null exactly when the input is blank, otherwise its trimmed text |
| NewPropertyPage.FacingInput | app/properties/new/page.tsx:426-430 | the orientation is null exactly when "none" is chosen, otherwise the chosen orientation |
| NewPropertyPage.SubmitPayload | app/properties/new/page.tsx:154-160 | the submitted features are those parsed from the features text |
| NewPropertyPage.PayloadIsForm | app/properties/new/page.tsx:154-160 | the submitted request is the form with only its features replaced |
| NewPropertyPage.PropertyIntake.constructor | app/properties/new/page.tsx:63-72 | the page starts on step 1 with the default form, empty features text, not saving, no image and nothing sent |
| NewPropertyPage.PropertyIntake.UpdateForm | app/properties/new/page.tsx:110-115 | the form becomes the given one; nothing else changes |
| NewPropertyPage.PropertyIntake.SetFeaturesInput | app/properties/new/page.tsx:472-473 | the features text becomes the given text; nothing else changes |
| NewPropertyPage.PropertyIntake.SelectFile | app/properties/new/page.tsx:122-136 | no file, or a file over 2 MB, leaves the image and preview as they were; otherwise both are set; nothing else changes |
| NewPropertyPage.PropertyIntake.GoToStep1 | app/properties/new/page.tsx:195 | the step becomes 1; nothing else changes |
| NewPropertyPage.PropertyIntake.GoToStep2 | app/properties/new/page.tsx:217 | the step becomes 2 exactly when the step-1 guard holds, otherwise it stays; nothing else changes |
| NewPropertyPage.PropertyIntake.Submit | app/properties/new/page.tsx:150-162 | ignored while saving; otherwise saving becomes true and exactly the form with its parsed features is sent |
| NewPropertyPage.PropertyIntake.Settle | app/properties/new/page.tsx:183-185 | once the service call has settled saving is false; nothing else changes |
| PropertiesPage.TranslationsDistinct | app/properties/page.tsx:40-70 | every property type, status and finishing quality has a non-empty Spanish label, and different members have different labels |
| PropertiesPage.ListedSpec | app/properties/page.tsx:140-193 | the listing keeps catalogue order and holds a property exactly when it is in the catalogue and passes the search and every active filter |
| PropertiesPage.NoFilterListsAll | app/properties/page.tsx:140-193 | with a blank search and the initial filters the whole catalogue is listed, unchanged |
| PropertiesPage.FilterProperties | app/properties/page.tsx:140-193 | the six filters applied one after the other give exactly the specified listing |
| PropertiesPage.FilterBySearch | app/properties/page.tsx:143-158 | a blank search keeps every property; otherwise the properties whose code, type label, finishing label or price text contains the lower-cased search |
| PropertiesPage.FilterByBedrooms | app/properties/page.tsx:160-163 | when the minimum is a positive number, only properties with at least that many bedrooms remain; otherwise all |
| PropertiesPage.FilterByPrice | app/properties/page.tsx:165-170 | when the maximum is a positive number, only properties priced at most that remain; otherwise all |
| PropertiesPage.FilterByType | app/properties/page.tsx:172-177 | when a type is chosen, only properties of that type remain; otherwise all |
| PropertiesPage.FilterByStatus | app/properties/page.tsx:179-182 | when a status is chosen, only properties with that status remain; otherwise all |
| PropertiesPage.FilterByMiVivienda | app/properties/page.tsx:184-190 | "YES" keeps the MiVivienda-eligible properties, "NO" the others, "ALL" everything |
| PropertiesPage.ChainIsListed | app/properties/page.tsx:140-193 | filtering in turn by the six conditions equals filtering once by all of them |
| PropertiesPage.StepDone | app/properties/page.tsx:146-190 | one more filter link narrows the catalogue by the conjunction of the conditions so far and the new one |
| PropertiesPage.NumberInput | app/properties/page.tsx:299-302 | an empty input clears the filter; a run of digits sets it to the number those digits denote |
| PropertiesPage.Catalogue.constructor | app/properties/page.tsx:106-116 | the page starts with no properties, an empty search, every select on "ALL" and page 1 |
| PropertiesPage.Catalogue.TotalPages | app/properties/page.tsx:195-198 | at least one page, and enough pages of nine for every listed property |
| PropertiesPage.Catalogue.Paginated | app/properties/page.tsx:200-203 | a page shows at most nine properties |
| PropertiesPage.Catalogue.Load | app/properties/page.tsx:123-124 | the properties become the loaded data and nothing else changes. Loaded at mount, on page 1, the page shown is in range |
| PropertiesPage.Catalogue.SetSearch | app/properties/page.tsx:205-208 | the search becomes the text and the page goes back to 1, which is in range |
| PropertiesPage.Catalogue.ChangeFilter | app/properties/page.tsx:205-212 | the filters become the previous ones merged with the patch and the page goes back to 1, which is in range |
| PropertiesPage.Catalogue.ClearFilters | app/properties/page.tsx:382-388 | "Limpiar filtros" restores the initial filters: the three selects go back to "ALL" and both number filters are dropped. The reset effect then puts the page back to 1, which is in range. |
| PropertiesPage.Catalogue.GoFirst | app/properties/page.tsx:558 | the page becomes 1; nothing else changes |
| PropertiesPage.Catalogue.GoPrevious | app/properties/page.tsx:566 | the page becomes `Math.max(1, p - 1)` and stays in range |
| PropertiesPage.Catalogue.GoNext | app/properties/page.tsx:579 | the page becomes `Math.min(totalPages, p + 1)` and stays in range |
| PropertiesPage.Catalogue.GoLast | app/properties/page.tsx:587 | the page becomes the last page, which is in range |
| Pagination.TotalPages | app/properties/page.tsx:195-198 | at least one page; enough pages for every item; exactly one page when there are no items; no page beyond the last needed one |
| Pagination.Slice | app/properties/page.tsx:202 | `Array.prototype.slice`: in-range bounds give exactly that slice, an end past the length stops at the end, a start past the length gives nothing |
| Pagination.Page | app/properties/page.tsx:200-203 | a page holds at most `size` items |
| Pagination.PagesPrefix | app/customers/page.tsx:94-97 | the first `k` pages, shown in order, are the first `k * size` items or the whole list |
| Pagination.AllPagesCover | app/properties/page.tsx:195-203 | showing every page in order shows the whole list, each item exactly once |
| Pagination.PastLastPageEmpty | app/properties/page.tsx:195-203 | a page beyond the last page is empty |
| Pagination.PagerInRange | app/properties/page.tsx:558-587 | each of the four pager buttons keeps the page between 1 and the page count, and ‹ and › move by one unless at an end |
| CustomersPage.FilterCustomers | app/customers/page.tsx:71-87 | a blank search lists every customer unchanged; any listing keeps the customers' order |
| CustomersPage.FilterCustomersMember | app/customers/page.tsx:74-86 | under a non-blank search a customer is listed exactly when it is in the list and the lower-cased search occurs in its lower-cased full name, e-mail or phone |
| CustomersPage.GetInitials | app/customers/page.tsx:105-110 | the initials have no lower-case letter, and are "C" when both names are empty |
| CustomersPage.InitialsLetters | app/customers/page.tsx:105-110 | one letter per non-empty name: the upper-cased first letter of the first name, then that of the last name |
| CustomersPage.AssignKeys | app/customers/page.tsx:54-55 | the map built from the results has an entry exactly for the ids that occur among the results |
| CustomersPage.AssignLast | app/customers/page.tsx:54-55 | a result whose id no later result repeats is what the map holds for that id |
| CustomersPage.BuildEligibilityMap | app/customers/page.tsx:54-55 | the `forEach` loop leaves the map that the assignments, in order, specify |
| CustomersPage.Results | app/customers/page.tsx:45-52 | one result per customer, in list order, pairing the customer's id with its lookup, null where the lookup failed |
| CustomersPage.EveryCustomerHasEntry | app/customers/page.tsx:45-56 | with distinct ids every customer has an entry, equal to its own lookup and null exactly when that lookup failed |
| CustomersPage.NoStrayEntries | app/customers/page.tsx:45-56 | an id belonging to no customer has no entry |
| CustomersPage.ViewEligibility | app/customers/page.tsx:112-121 | an error exactly when the entry is missing or null; otherwise the MiVivienda and Techo Propio results of that entry |
| CustomersPage.CustomerList.constructor | app/customers/page.tsx:28-35 | the page starts with no customers, an empty search, page 1 and an empty map |
| CustomersPage.CustomerList.TotalPages | app/customers/page.tsx:89-92 | at least one page, and enough pages of five for every listed customer |
| CustomersPage.CustomerList.Paginated | app/customers/page.tsx:94-97 | a page shows at most five customers |
| CustomersPage.CustomerList.Load | app/customers/page.tsx:38-56 | the customers become the loaded data and the map is built from their lookups; search and page are unchanged. Loaded at mount, on page 1, the page shown is in range |
| CustomersPage.CustomerList.SetSearch | app/customers/page.tsx:99-102 | the search becomes the text and the page goes back to 1, which is in range |
| CustomersPage.CustomerList.GoFirst | app/customers/page.tsx:389 | the page becomes 1; nothing else changes |
| CustomersPage.CustomerList.GoPrevious | app/customers/page.tsx:397 | the page becomes `Math.max(1, p - 1)` and stays in range |
| CustomersPage.CustomerList.GoNext | app/customers/page.tsx:411-413 | the page becomes `Math.min(totalPages, p + 1)` and stays in range |
| CustomersPage.CustomerList.GoLast | app/customers/page.tsx:421 | the page becomes the last page, which is in range |
| SimulationsPage.SavedSimulations | app/simulations/page.tsx:40-43 | exactly the simulations whose status is SAVED, in their original order |
| SimulationsPage.FilterSimulations | app/simulations/page.tsx:45-59 | a blank search lists every saved simulation unchanged; any listing keeps their order |
| SimulationsPage.FilterSimulationsMember | app/simulations/page.tsx:40-59 | under a non-blank search a simulation is listed exactly when it is saved and the lower-cased search occurs in one of its five lower-cased ids, a missing property id counting as "" |
| SimulationsPage.OnlySavedListed | app/simulations/page.tsx:40-59 | whatever the search, only saved simulations from the list are shown |
| SimulationsPage.FormatCurrency | app/simulations/page.tsx:61-68 | a dash exactly when the amount is missing; otherwise the amount in the given currency, PEN by default |
| SimulationsPage.FormatDate | app/simulations/page.tsx:70-81 | a dash exactly when the date text is missing, empty or not a valid date; otherwise that date |
| SimulationWizard.Apply | app/simulations/new/page.tsx:185-186 | after `updateField(key, value)` the named field holds the value |
| SimulationWizard.ApplyKeepsOthers | app/simulations/new/page.tsx:185-186 | an update leaves every field it does not name as it was |
| SimulationWizard.ApplyInterestRate | app/simulations/new/page.tsx:283 | updating the interest rate changes that field alone |
| SimulationWizard.Preselected | app/simulations/new/page.tsx:267-274 | the pre-selected bono map sets to true exactly the types of the eligible bonos, and nothing else |
| SimulationWizard.PreselectBonos | app/simulations/new/page.tsx:267-273 | the `filter(eligible).forEach` loop builds exactly the pre-selected map |
| SimulationWizard.NothingSelectedSumsToZero | app/simulations/new/page.tsx:326-331 | with no bono selected the bono total is 0 |
| SimulationWizard.SumOfSelectedEligible | app/simulations/new/page.tsx:326-331 | when a bono is selected exactly when it is eligible, the bono total is the sum of the eligible non-zero amounts |
| SimulationWizard.PreselectedTotal | app/simulations/new/page.tsx:267-331 | right after the eligibility fetch, with no repeated bono type, the bono total is the sum of the eligible bonos' amounts |
| SimulationWizard.Clamp | app/simulations/new/page.tsx:348 | `Math.max(0, x)`: non-negative, at least `x`, and either 0 or `x` |
| SimulationWizard.CalculatedTotals | app/simulations/new/page.tsx:322-350 | the initial payment is contribution plus bonos; the loan is the price minus the initial payment, clamped at 0; no property means price 0; no eligibility means no bonos; the contribution is `parseFloat(...) \|\| 0` |
| SimulationWizard.SumBonos | app/simulations/new/page.tsx:324-332 | the `forEach` loop adds exactly the amounts of the selected bonos with a non-zero amount |
| SimulationWizard.ComputeTotals | app/simulations/new/page.tsx:322-350 | the memoised totals are exactly the specified totals |
| SimulationWizard.GuardTwoCapsLoan | app/simulations/new/page.tsx:341-363 | once the down-payment guard passes, the loan is at most nine tenths of the price |
| SimulationWizard.RateGuardInclusive | app/simulations/new/page.tsx:365-370 | with an institution chosen, a whole-number rate passes guard 3 exactly when it lies in the rate range, both ends included |
| SimulationWizard.TermGuardRange | app/simulations/new/page.tsx:372-375 | a whole-number term passes guard 4 exactly when it is between 60 and 300 months |
| SimulationWizard.NoRangeNoStepThree | app/simulations/new/page.tsx:365-370 | without a loaded rate range guard 3 always fails |
| SimulationWizard.NextStep | app/simulations/new/page.tsx:385-410 | a failing guard keeps the step; a passing guard moves one step forward, never past 5 |
| SimulationWizard.PreviousStep | app/simulations/new/page.tsx:412-416 | one step back, never below 1 |
| SimulationWizard.BackAndNext | app/simulations/new/page.tsx:385-416 | Back undoes a successful Next below step 5, and Next undoes Back above step 1 |
| SimulationWizard.Footer | app/simulations/new/page.tsx:676-712 | the main button is "Guardar" exactly on step 5, "Generar" exactly on step 4 without an up-to-date simulation, and "Siguiente" on step 4 only with a generated simulation |
| SimulationWizard.FooterGuardsStepFive | app/simulations/new/page.tsx:684-694 | through the footer, step 5 is reached by "Siguiente" only with a generated simulation the form has not changed since |
| SimulationWizard.NextIgnoresGeneration | app/simulations/new/page.tsx:403-409 | `handleNext` itself moves from step 4 to step 5 even with no generated simulation |
| SimulationWizard.MiViviendaProgramIff | app/simulations/new/page.tsx:129-132 | a program name contains NUEVO_CREDITO_MIVIVIENDA or MIVIVIENDA exactly when it is NUEVO_CREDITO_MIVIVIENDA |
| SimulationWizard.DefaultProgram | app/simulations/new/page.tsx:127-138 | the default programme is a listed NUEVO_CREDITO_MIVIVIENDA programme, and there is none exactly when no such programme is listed |
| SimulationWizard.CreateRequest | app/simulations/new/page.tsx:432-436 | the request names the selected customer, property and institution and the default programme |
| SimulationWizard.FractionOfPercentage | app/simulations/new/page.tsx:453-462 | a typed percentage goes as its hundredth, and NaN stays NaN |
| SimulationWizard.RequestAmounts | app/simulations/new/page.tsx:437-456 | every currency is PEN, the price, down payment and loan are the totals, the term is `parseInt` of the typed term, and no capitalisation period is sent |
| SimulationWizard.RequestRates | app/simulations/new/page.tsx:452-463 | the rate and discount are the typed percentages as fractions, an empty discount is null, and the grace period is the `parseInt` of its text, or 0 months when that is NaN |
| SimulationWizard.RequestEnumsRoundTrip | app/simulations/new/page.tsx:454-459 | the rate and grace types are sent by the names the enum decoder reads back |
| SimulationWizard.Deleted | app/simulations/new/page.tsx:428-430 | the deleted ids are exactly the ids of the deletes that succeeded |
| SimulationWizard.DeletedSnoc | app/simulations/new/page.tsx:428-430 | one more call adds its id to the deleted ones exactly when it is a delete that succeeded |
| SimulationWizard.Wizard.constructor | app/simulations/new/page.tsx:81-107 | the wizard starts on step 1 with `initialState`, no simulation, nothing modified, nothing loaded or selected and no calls made |
| SimulationWizard.Wizard.Load | app/simulations/new/page.tsx:140-174 | the customer, property and institution lists become the loaded ones; the programme list is kept |
| SimulationWizard.Wizard.LoadPrograms | app/simulations/new/page.tsx:126-138 | the programmes are stored; with a default programme its id is kept and a fetched rate range replaces the old one; otherwise both stay |
| SimulationWizard.Wizard.UpdateField | app/simulations/new/page.tsx:185-192 | the field changes, and the form is marked modified once a simulation has been generated |
| SimulationWizard.Wizard.SelectCustomer | app/simulations/new/page.tsx:233-247 | the customer is selected and found in the list; eligibility, bonos, property id and property are reset, so guard 1 fails |
| SimulationWizard.Wizard.SelectProperty | app/simulations/new/page.tsx:250-279 | the property is selected and found in the list; with a customer selected and the fetch answering, the snapshot is replaced and its eligible bonos pre-selected; a failed fetch keeps the old snapshot and bonos |
| SimulationWizard.Wizard.SelectPropertyCorrected | app/simulations/new/page.tsx:250-279 | the same selection with the snapshot and bonos cleared before the fetch: the snapshot, when present, always belongs to the selected customer and property |
| SimulationWizard.Wizard.SearchInstitutions | app/simulations/new/page.tsx:285-300 | the institutions are the search's answer when the rate is a non-zero number, a default programme is known and the search answers; otherwise none |
| SimulationWizard.Wizard.ChangeInterestRate | app/simulations/new/page.tsx:282-301 | the rate is updated, the form marked modified once a simulation exists, and the institutions searched as above |
| SimulationWizard.Wizard.ChangeInstitution | app/simulations/new/page.tsx:304-319 | the institution is updated, and its rate details replace the old ones when a default programme is known and the fetch answers |
| SimulationWizard.Wizard.Next | app/simulations/new/page.tsx:385-410 | the step becomes `NextStep` of the step, the guard of that step, and the generation flags before the call |
| SimulationWizard.Wizard.Back | app/simulations/new/page.tsx:412-416 | the step becomes `PreviousStep` of the old step |
| SimulationWizard.Wizard.DeletePrevious | app/simulations/new/page.tsx:427-430 | a held simulation with an id is deleted first, and the create follows only if that delete succeeded |
| SimulationWizard.Wizard.CreateSimulation | app/simulations/new/page.tsx:467-476 | the create is logged; an answer becomes the held simulation, clears the modified flag and moves to step 5; a failure changes nothing else |
| SimulationWizard.Wizard.SendGenerate | app/simulations/new/page.tsx:419-476 | nothing happens when the guard fails; otherwise a held simulation is deleted first, the create follows unless that delete failed, and only an answered create changes the simulation, flag and step |
| SimulationWizard.Wizard.Generate | app/simulations/new/page.tsx:418-486 | the same outcomes, with the guard `canGenerateSimulation` and the request built from the form, default programme and totals before the call |
| SimulationWizard.Wizard.SendGenerateCorrected | app/simulations/new/page.tsx:427-476 | as `SendGenerate`, but the held simulation is dropped once its delete succeeds, so the page never holds a deleted simulation |
| SimulationWizard.Wizard.GenerateCorrected | app/simulations/new/page.tsx:418-486 | `handleGenerate` with that correction; it keeps the held simulation live |
| SimulationWizard.Wizard.Submit | app/simulations/new/page.tsx:488-513 | with a generated simulation that has an id, a save of that id is logged; the page leaves unless that save failed; without a simulation nothing happens; a save never names a deleted simulation while the held one is live |
| SimulationWizard.Wizard.Cancel | app/simulations/new/page.tsx:515-528 | a held simulation with an id is saved; the page leaves unless that save failed |
| SimulationWizard.StaleEligibility | app/simulations/new/page.tsx:250-279 | choosing p1 (eligible), then p2 with the fetch failing, leaves p1's snapshot, and guard 1 passes for p2 |
| SimulationWizard.DeletedSimulationKept | app/simulations/new/page.tsx:426-486 | when a delete succeeds and the create then throws, the page still holds the deleted simulation |
| SimulationWizard.CancelSavesDeleted | app/simulations/new/page.tsx:515-520 | holding a deleted simulation, "Cancelar" logs a save of an id the log has already deleted |
| Text.TrimStart | mappers/enum.mapper.ts:12 | the leading white space, and only that, is removed |
| Text.TrimEnd | mappers/enum.mapper.ts:12 | the trailing white space, and only that, is removed |
| Text.TrimTight | app/properties/new/page.tsx:158 | a trimmed string has no white space at either end |
| Text.TrimIdempotent | app/customers/new/page.tsx:249 | trimming twice is trimming once |
| Text.TrimPadded | mappers/enum.mapper.ts:12 | white space added around a tight non-empty string is trimmed away again |
| Text.ToUpperNoLower | mappers/enum.mapper.ts:12 | an upper-cased string has no lower-case letter |
| Text.UpperOfLower | mappers/enum.mapper.ts:12-16 | upper-casing a lower-cased name without lower-case letters gives the name back |
| Text.ContainsIff | app/properties/page.tsx:152-155 | `includes` holds exactly when the query occurs as a slice |
| Text.Split | app/properties/new/page.tsx:157 | `split` gives at least one piece, and no piece contains the separator |
| Text.JoinSplit | app/properties/new/page.tsx:157 | joining the pieces of a split gives the original string back |
| Text.SplitJoin | app/properties/new/page.tsx:157 | splitting a join of separator-free pieces gives the pieces back |
| Seqs.Keep | app/properties/page.tsx:146 | `filter` keeps only elements of the input that satisfy the predicate, never more of them |
| Seqs.KeepSubsequence | app/properties/page.tsx:146 | `filter` keeps the input's order |
| Seqs.KeepMember | app/properties/page.tsx:146 | an element survives `filter` exactly when it is in the input and satisfies the predicate |
| Seqs.KeepKeep | app/properties/page.tsx:140-193 | filtering twice is filtering once by the conjunction |
| Seqs.Map | app/properties/new/page.tsx:158 | `map` keeps the length and applies the function at every position |
| Seqs.Find | app/simulations/new/page.tsx:252 | `find` gives the first element satisfying the predicate, and nothing exactly when none does |
| Numbers.ParseIntNatToString | app/simulations/new/page.tsx:373 | `parseInt` of the digits of a natural number gives that number |
| Numbers.ParseFloatNatToString | app/simulations/new/page.tsx:367 | `parseFloat` of the digits of a natural number gives that number |
| Numbers.NumberOfNatToString | app/properties/page.tsx:301 | `Number` of the digits of a natural number gives that number |
| Numbers.NumberTextNat | app/properties/page.tsx:150 | `String` of a whole number is its decimal digits |

## Definitions

These members carry no contract of their own. They are the definitions the contracts above are stated in terms of. Each row names the source they model and says what they define.

| member | source | states |
|---|---|---|
| AuthContext.Reduce | context/AuthContext.tsx:30-50 | `authReducer`. `SET_AUTH` records the user and the token, authenticates, and clears loading and error. `LOGOUT` returns `initialState`. `SET_ERROR` and `SET_LOADING` replace their one field. |
| AuthContext.SignInDispatches | context/AuthContext.tsx:76-96 | `signIn` dispatches `SET_LOADING true`, then either `SET_AUTH` with the returned user and the stored token, or `SET_ERROR` with the thrown message. |
| SimulationWizard.CanProceedFromStep1 | app/simulations/new/page.tsx:353-357 | Guard 1: a customer and a property are chosen, an eligibility verdict is held, and its MiVivienda verdict is eligible. |
| SimulationWizard.CanProceedFromStep2 | app/simulations/new/page.tsx:359-363 | Guard 2: the total initial payment is at least a tenth of the property price. |
| SimulationWizard.CanProceedFromStep3 | app/simulations/new/page.tsx:365-370 | Guard 3: the rate and the institution are filled in, a rate range is known, and `parseFloat` of the rate lies within it, ends included. NaN fails. |
| SimulationWizard.CanProceedFromStep4 | app/simulations/new/page.tsx:372-375 | Guard 4: `parseInt` of the term lies between 60 and 300, ends included. NaN fails. |
| SimulationWizard.CanGenerateSimulation | app/simulations/new/page.tsx:378-383 | `canGenerateSimulation`: the conjunction of the four guards. |
| SimulationWizard.BonoSum | app/simulations/new/page.tsx:324-332 | `totalBonos`: the sum of the amounts of the bonos that are selected and have a truthy amount. |
| SimulationWizard.AvailableBonos | app/simulations/new/page.tsx:326 | The MiVivienda bonos of the held eligibility, or none. |
| SimulationWizard.PropertyPrice | app/simulations/new/page.tsx:336-339 | The property's price when a property is held and its price is truthy, otherwise 0. |
| SimulationWizard.FooterEnabled | app/simulations/new/page.tsx:676-712 | Each footer button's `disabled` condition, negated. "Siguiente" is disabled while submitting or generating, "Generar"/"Regenerar" while generation is not possible or is running, and "Guardar" while submitting or with nothing generated. |
| SimulationWizard.BackEnabled | app/simulations/new/page.tsx:667-674 | "Volver" is disabled on step 1, while submitting and while generating. |
| EnumMapper.Normalize | mappers/enum.mapper.ts:12 | `input.toString().trim().toUpperCase()`. |
| EnumMapper.MapEnumToString | mappers/enum.mapper.ts:27-29 | `mapEnumToString`: `String(value)`, the member's name. |
| LoanSimulationMapper.MapLoanSimulation | mappers/loan-simulation.mapper.ts:92-104 | `mapLoanSimulation`. The ids and dates are copied, the status is decoded with DRAFT as fallback, the parameters are mapped, the payment plan is mapped when present and null otherwise, and the subsidies are mapped in order. |
| NewCustomerPage.HasSpouseSection | app/customers/new/page.tsx:186-191 | `hasSpouseSection`: the marital status is MARRIED or COHABITING. |
| NewCustomerPage.Step1Complete | app/customers/new/page.tsx:200-208 | The step-1 check of `handleNext`: the six required texts are non-blank after `trim` and a birth date is given. |
| NewCustomerPage.Step2Complete | app/customers/new/page.tsx:214-220 | The step-2 check: occupation and profession are non-blank after `trim`, and the three amounts are non-empty. |
| NewPropertyPage.DefaultForm | app/properties/new/page.tsx:30-56 | `defaultForm`, field by field. The construction year is the current year, passed in as a parameter. |
| NewPropertyPage.CanGoNextStep1 | app/properties/new/page.tsx:139-147 | `canGoNextStep1`: the trimmed property code is non-empty, and the built area, total area, bedrooms and bathrooms are positive. |
| PropertiesPage.TranslatePropertyType | app/properties/page.tsx:40-50 | `translatePropertyType`: the Spanish label of each of the six property types. |
| PropertiesPage.TranslateStatus | app/properties/page.tsx:52-60 | `translateStatus`: the Spanish label of each of the four statuses. |
| PropertiesPage.TranslateFinishing | app/properties/page.tsx:62-70 | `translateFinishing`: the Spanish label of each of the four finishing qualities. |
| PropertiesPage.SearchHit | app/properties/page.tsx:146-157 | The search predicate. The lower-cased code, type label, finishing label or price text includes the query. |
| PropertiesPage.Listed | app/properties/page.tsx:140-193 | The specification of the listing: the catalogue filtered once by the conjunction of the search and the five filters, in catalogue order. |
| PropertiesPage.ApplyPatch | app/properties/page.tsx:210-212 | `{ ...prev, ...patch }`: the one patched filter replaced, the others kept. |
| SimulationsPage.IsSaved | app/simulations/page.tsx:41 | The status is SAVED. |
| SimulationsPage.SearchHit | app/simulations/page.tsx:50-58 | One of the five lower-cased ids includes the term. A missing property id reads as "". |
| CustomersPage.SearchHit | app/customers/page.tsx:75-86 | The lower-cased full name, e-mail or phone number includes the query. |
| Pagination.PreviousPage | app/properties/page.tsx:566 | The ‹ button: `Math.max(1, p - 1)`. |
| Pagination.NextPage | app/properties/page.tsx:579 | The › button: `Math.min(totalPages, p + 1)`. |
| Pagination.LastPage | app/properties/page.tsx:587 | The » button: `totalPages`. |
| BaseService.QueryParams | services/base.service.ts:22-28 | The query entries whose value is neither undefined nor null, in order, each as its key and `String(value)`. |
| BaseService.JoinPath | services/base.service.ts:17-20 | `${cleanBase}/${cleanPath}`, with the trailing slashes of the base and the leading slashes of the path removed. |
| BaseService.FallbackMessage | services/base.service.ts:49 | "Error en la solicitud (" followed by the status in decimal, then ")". |
| Numbers.ParseFloat | app/simulations/new/page.tsx:323 | `parseFloat`. Leading white space and an optional sign are skipped, then the longest decimal prefix is read. No digit means NaN, written `None`. |
| Numbers.ParseInt | app/simulations/new/page.tsx:373 | `parseInt` in base ten. Leading white space and an optional sign are skipped, then the leading digits are read. No digit means NaN. |
| Numbers.NumberOf | app/customers/new/page.tsx:273 | `Number(text)`. White space at both ends is ignored, "" is 0, and anything that is not a decimal literal throughout is NaN. |
| Numbers.NumberText | app/properties/page.tsx:150 | `String(number)` in plain decimal notation: a sign, the whole part, and the fraction digits when there are any. |
| Text.Trim | mappers/enum.mapper.ts:12 | `trim`: white space removed at both ends. |
| Text.ToUpper | mappers/enum.mapper.ts:12 | `toUpperCase`, character by character, on ASCII letters. |
| Text.ToLower | app/properties/page.tsx:145 | `toLowerCase`, character by character, on ASCII letters. |

## Left out

- `config.matcher` of middleware.ts: not modelled. Next.js runs the middleware only on /dashboard/*, /admin/* and /login. `Middleware.Middleware` states the decision for a matched route. Other routes, such as /customers or /properties, are served without the middleware.
- HTTP: `fetch`, `JSON.parse`, response bodies and every service method except `buildUrl` and the message selection of `request`. They are I/O. Backend answers are handler parameters instead.
- The simulation service's `delete` and `save`: they are not defined in services/loan-simulation.service.ts. They appear only as entries in the wizard's call log, with their success as a parameter.
- Asynchrony: the concurrent loads at mount, `Promise.all` over the eligibility lookups, and out-of-order responses. Each handler is modelled as atomic.
- The `generating` and `submitting` flags of the wizard: they only change inside one handler run, which is atomic here. They appear only as parameters of `FooterEnabled` and `BackEnabled`.
- SimulationWizard.Wizard.Submit: does not model the `submitting` re-entry guard, for the same reason.
- Floating point: amounts are `real`. IEEE-754 rounding of `propertyPrice * 0.1`, `rate / 100` and the bono sums is not modelled.
- `toFixed`, `Intl.NumberFormat` and `toLocaleString`: display formatting only. `FormatCurrency` and `FormatDate` stop at the value they would format.
- `new Date(...)`: validity is a parameter of `FormatDate`. The calendar value is not modelled, only the text.
- Numbers.ParseFloat, Numbers.ParseInt and Numbers.NumberOf: read decimal notation only. There is no exponent, no `Infinity` and no hexadecimal or other radix.
- Numbers.NumberText: writes plain decimal notation with at most 20 fraction digits. JavaScript's shortest round-trip digits and exponent notation are not modelled.
- Text.ToUpper and Text.ToLower: fold ASCII letters only. Unicode case mapping is left out.
- URL handling: `new URL` normalisation and the percent-encoding of query strings. Only the string assembly and the filtering of null or undefined query values are modelled.
- UI: JSX rendering, modals, stepper visuals, toasts, router navigation (except the wizard's `leftPage` flag) and `setTimeout`. This covers components/, app/page.tsx and app/layout.tsx.
- The wizard's customer and property searches inside its modals, and its eco filter: they only choose what the modal lists.
- Browser storage: utils/storage.ts is a wrapper over `localStorage`. The auth provider holds the two stored values as fields instead.
- Server-side computations: TCEA, TIR, VAN, the amortisation schedule and the eligibility rules. The backend computes them and the front end only shows them.
- PropertiesPage.TranslatePropertyType, PropertiesPage.TranslateStatus and PropertiesPage.TranslateFinishing: total over the enums, so the `?? type` fallback for a value outside the enum cannot arise.
- PropertiesPage.NumberInput: its contract pins the value only for inputs made of digits. Other inputs go through `Number(...)` as modelled in `Numbers.NumberOf`.
- PropertyMapper.MapPropertyToCreateRequest: the `?? 0`, `?? false` and `?? "PEN"` defaults on fields that `CreatePropertyRequest` never leaves empty change nothing.
- SimulationWizard.Wizard.Cancel: models `handleCancel` as written. It saves the simulation, although its error text speaks of deleting it.
- "Nothing else changes" for the class methods is stated in their `ensures` clauses, or follows from their field-granular `modifies` clauses.

## Findings

| source | as written | input that shows it | evidently intended | confidence | as-written member | corrected member |
|---|---|---|---|---|---|---|
| context/AuthContext.tsx:80-83 | `signIn` dispatches `SET_AUTH` with `StorageService.getToken()!`, but nothing in the front end ever stores a token | a fresh sign-in with an empty storage: the state ends authenticated with a null token, contrary to the reducer's invariant | the token of the authenticated user the service returned | not executed | AuthContext.SignInWithoutStoredToken | AuthContext.SignInFixedKeepsInv |
| app/simulations/new/page.tsx:250-279 | `handlePropertyChange` replaces the eligibility snapshot only when the fetch succeeds, and never clears it | customer c1, property p1 (eligible), then property p2 with the eligibility fetch failing: guard 1 passes on p1's snapshot while p2 is selected | clear the snapshot and bonos before the fetch, as `handleCustomerChange` does | not executed | SimulationWizard.StaleEligibility | SimulationWizard.Wizard.SelectPropertyCorrected |
| app/simulations/new/page.tsx:427-476 | after a successful delete of the held simulation, a create that throws leaves `generatedSimulation` naming the deleted simulation | a generated simulation s, an edited form, then "Regenerar" with the delete succeeding and the create throwing: the header's "Cancelar" then saves s, which no longer exists (or "Regenerar" deletes it again) | forget the held simulation once its delete succeeds | not executed | SimulationWizard.DeletedSimulationKept | SimulationWizard.Wizard.GenerateCorrected |
