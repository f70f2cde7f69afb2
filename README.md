# Transjakarta vehicles: a verified model of the data orchestration

This project models, in Dafny, the logic behind the vehicles feature of the
Transjakarta Android app: how it pages through the upstream's vehicles and
trips, collects, sorts and caches the route list, turns upstream resources
into domain entities and those into screen labels, joins a vehicle with its
route, trip, stop and shape, counts down a rate-limit reset, and keeps the
state of the filter sheet and the vehicle detail screen. The wrapper
`mapNetworkCall`, which turns a network call into a `DomainResult`, is modelled
as well.

Calls into code outside the model become inputs. An upstream call is a
function from the request to a `CallOutcome` (returned a value or threw), or,
for the route pages, a finite sequence of outcomes. A clock is a sequence of
readings, and the date formatter is a function parameter. Methods return the
requests they made, so their contracts can say what was asked for as well as
what came back.

| file | models |
|---|---|
| `wrappers.dfy`, `core_domain.dfy` | `Option`, the throwable kinds, `DomainResult`, `UiState` |
| `text.dfy` | Kotlin's `isBlank`, `ifBlank`, `trim`, `sorted`, `joinToString`, `toLongOrNull`, `%02d` |
| `networking.dfy` | `mapNetworkCall` |
| `vehicle_model.dfy`, `dtos.dfy`, `data_mappers.dfy` | entities, upstream resources and the data mappers |
| `filters.dfy`, `query_builders.dfy` | filter values and the query builders |
| `paging.dfy`, `vehicle_paging.dfy`, `trip_paging.dfy` | the offset paging sources and the trip pager guard |
| `route_sort.dfy`, `route_repository.dfy` | the route repository, its stable sort and its cache |
| `relations.dfy` | `GetVehicleDetailWithRelationsUseCase` |
| `ui_mappers.dfy` | vehicle, detail and filter-option UI mappers |
| `rate_limit.dfy` | the rate-limit countdown of `VehicleListViewModel` |
| `filter_view_model.dfy`, `detail_view_model.dfy` | `FilterViewModel` and `VehicleDetailViewModel` |

## Model

| member | source | states |
|---|---|---|
| Networking.ErrorFromThrowable | core/networking/src/main/java/com/fakhry/transjakarta/core/networking/util/DomainResultExtensions.kt:11-22 | an IOException becomes a network error with the fixed text "Network error"; any other failure keeps its own message, or "Unexpected error" when it has none; the cause is kept and code and data stay empty |
| Networking.MessageOf | core/networking/src/main/java/com/fakhry/transjakarta/core/networking/util/DomainResultExtensions.kt:19 | `Throwable.message` of each kind of failure; ErrorFromThrowable shows a non-IO failure keeps it and falls back to "Unexpected error" without it |
| Networking.MapNetworkCall | core/networking/src/main/java/com/fakhry/transjakarta/core/networking/util/DomainResultExtensions.kt:9-23 | never Empty; Success exactly when the call returned, carrying its value; a throw is mapped by ErrorFromThrowable |
| VehicleModel.StatusFrom | feature/vehicles/src/main/java/com/fakhry/transjakarta/feature/vehicles/domain/model/Vehicle.kt:21-26 | the three live statuses are recognised by their exact name, in both directions; every other string, "UNKNOWN" included, is Unknown |
| VehicleModel.StatusFromName | feature/vehicles/src/main/java/com/fakhry/transjakarta/feature/vehicles/domain/model/Vehicle.kt:13-27 | StatusFrom inverts the enum's name on all four values |
| Dtos.RelatedId | feature/vehicles/src/main/java/com/fakhry/transjakarta/feature/vehicles/data/mapper/VehicleDataMapper.kt:26-28 | the related id is present exactly when the relationship, its data and its id are all present, and then it is that id |
| DataMappers.ToVehicle | feature/vehicles/src/main/java/com/fakhry/transjakarta/feature/vehicles/data/mapper/VehicleDataMapper.kt:8-15 | the id is copied; a missing label becomes "Vehicle"; a missing status is Unknown, otherwise it goes through StatusFrom; a present latitude or longitude is copied and a missing one becomes 0; a missing timestamp becomes ""; with no attributes at all the result is the fixed default vehicle |
| DataMappers.ToVehicles | feature/vehicles/src/main/java/com/fakhry/transjakarta/feature/vehicles/data/mapper/VehicleDataMapper.kt:17 | one vehicle per DTO, in order, each mapped by ToVehicle |
| DataMappers.ToVehicleDetail | feature/vehicles/src/main/java/com/fakhry/transjakarta/feature/vehicles/data/mapper/VehicleDataMapper.kt:19-31 | route, trip and stop ids follow the relationship chain and are absent without relationships; coordinates are copied or 0 when missing; bearing and direction are copied from the attributes and absent without them |
| DataMappers.VehicleMappersAgree | feature/vehicles/src/main/java/com/fakhry/transjakarta/feature/vehicles/data/mapper/VehicleDataMapper.kt:8-31 | the list mapper and the detail mapper agree on id, label, status, coordinates and timestamp |
| DataMappers.ToRoute | feature/vehicles/src/main/java/com/fakhry/transjakarta/feature/vehicles/data/mapper/RouteDataMapper.kt:6-10 | the id is copied; a missing short or long name becomes "", a present one is kept |
| DataMappers.ToRoutes | feature/vehicles/src/main/java/com/fakhry/transjakarta/feature/vehicles/data/mapper/RouteDataMapper.kt:12 | one route per DTO, in order |
| DataMappers.ToTrip | feature/vehicles/src/main/java/com/fakhry/transjakarta/feature/vehicles/data/mapper/TripDataMapper.kt:6-11 | the id is copied; name, headsign and block id default to ""; the shape id follows the trip's shape relationship |
| DataMappers.ToTrips | feature/vehicles/src/main/java/com/fakhry/transjakarta/feature/vehicles/data/mapper/TripDataMapper.kt:13 | one trip per DTO, in order |
| Filters.VehicleFilters.IsEmpty | feature/vehicles/src/main/java/com/fakhry/transjakarta/feature/vehicles/domain/model/VehicleFilters.kt:7-8 | no route and no trip selected; VehicleFiltersEmptiness shows the default is empty and any selected id makes the filters non-empty |
| Filters.TripFilters.IsEmpty | feature/vehicles/src/main/java/com/fakhry/transjakarta/feature/vehicles/domain/model/TripFilters.kt:7-8 | no route selected and a blank name; TripFiltersEmptiness shows a whitespace-only name still counts as empty |
| Filters.VehicleFiltersEmptiness | feature/vehicles/src/main/java/com/fakhry/transjakarta/feature/vehicles/domain/model/VehicleFilters.kt:3-9 | the default filters are empty, and one selected route or trip makes them non-empty |
| Filters.TripFiltersEmptiness | feature/vehicles/src/main/java/com/fakhry/transjakarta/feature/vehicles/domain/model/TripFilters.kt:3-9 | the default is empty; a whitespace-only name with no routes still counts as empty; a route or a non-blank name makes the filters non-empty |
| QueryBuilders.BuildVehicleQuery | feature/vehicles/src/main/java/com/fakhry/transjakarta/feature/vehicles/data/remote/query/VehicleFilterQueryBuilder.kt:6-17 | the map is empty exactly when the filters are; each key is present exactly when its id set is non-empty, and holds those ids sorted and comma-joined; no other key appears |
| QueryBuilders.BuildTripQuery | feature/vehicles/src/main/java/com/fakhry/transjakarta/feature/vehicles/data/remote/query/TripFilterQueryBuilder.kt:6-21 | the map is empty exactly when the filters are; the route key is present exactly when routes are selected; the name key is present exactly when the trimmed name is non-empty, and holds that trimmed name, which has no whitespace at either end |
| QueryBuilders.JoinedIdsCanonical | feature/vehicles/src/main/java/com/fakhry/transjakarta/feature/vehicles/data/remote/query/VehicleFilterQueryBuilder.kt:11-14 | any strictly ascending listing of an id set joins to the same value, so the order in which ids were selected does not matter |
| QueryBuilders.SortedRouteExample | feature/vehicles/src/main/java/com/fakhry/transjakarta/feature/vehicles/data/remote/query/VehicleFilterQueryBuilder.kt:11 | the set {Red, Blue} is sent as "Blue,Red" by both builders |
| QueryBuilders.JoinedIdsExample | feature/vehicles/src/main/java/com/fakhry/transjakarta/feature/vehicles/data/remote/query/VehicleFilterQueryBuilder.kt:11 | the ids {Red, Blue} are sorted and joined as "Blue,Red" |
| QueryBuilders.TripQueryNameTrimmed | feature/vehicles/src/main/java/com/fakhry/transjakarta/feature/vehicles/data/remote/query/TripFilterQueryBuilder.kt:15-17 | the name sent upstream never starts or ends with whitespace |
| QueryBuilders.BlankNameExample | feature/vehicles/src/main/java/com/fakhry/transjakarta/feature/vehicles/data/remote/query/TripFilterQueryBuilder.kt:6-7 | a whitespace-only name with no routes sends no parameters |
| Text.IsBlank | feature/vehicles/src/main/java/com/fakhry/transjakarta/feature/vehicles/domain/model/TripFilters.kt:8 | `isBlank`: every character is whitespace, the empty string included; TrimEmptyIffBlank shows it is exactly the strings that trim to nothing |
| Text.IfBlank | feature/vehicles/src/main/java/com/fakhry/transjakarta/feature/vehicles/data/repository/RouteRepositoryImpl.kt:38 | `ifBlank`: the string itself unless it is blank, the default otherwise |
| Text.Trim | feature/vehicles/src/main/java/com/fakhry/transjakarta/feature/vehicles/data/remote/query/TripFilterQueryBuilder.kt:15 | `trim`: TrimAt, TrimEnds and TrimSpec show it removes exactly a blank prefix and a blank suffix, leaves no whitespace at either end, and is empty exactly for blank input |
| Text.Join | feature/vehicles/src/main/java/com/fakhry/transjakarta/feature/vehicles/data/remote/query/VehicleFilterQueryBuilder.kt:11-14 | `joinToString`: nothing gives "", one element gives that element; JoinedIdsCanonical and JoinedIdsExample show the joined ids do not depend on selection order |
| Text.TrimAt | feature/vehicles/src/main/java/com/fakhry/transjakarta/feature/vehicles/data/remote/query/TripFilterQueryBuilder.kt:15 | the trimmed string is the input with a blank prefix and a blank suffix removed |
| Text.TrimEnds | feature/vehicles/src/main/java/com/fakhry/transjakarta/feature/vehicles/data/remote/query/TripFilterQueryBuilder.kt:15 | the trimmed string neither starts nor ends with whitespace |
| Text.TrimEmptyIffBlank | feature/vehicles/src/main/java/com/fakhry/transjakarta/feature/vehicles/data/remote/query/TripFilterQueryBuilder.kt:15-16 | the trimmed string is empty exactly when the input is blank |
| Text.TrimSpec | feature/vehicles/src/main/java/com/fakhry/transjakarta/feature/vehicles/data/remote/query/TripFilterQueryBuilder.kt:15 | the trimmed string is a substring of the input with no whitespace at either end, and it is empty exactly when the input is blank |
| Text.SortedMembers | feature/vehicles/src/main/java/com/fakhry/transjakarta/feature/vehicles/data/remote/query/VehicleFilterQueryBuilder.kt:11 | lists each member of the set exactly once, in strictly ascending order |
| Text.StrictlySortedUnique | feature/vehicles/src/main/java/com/fakhry/transjakarta/feature/vehicles/data/remote/query/VehicleFilterQueryBuilder.kt:11 | two strictly ascending listings of the same members are equal |
| Text.NatToStringDigits | feature/vehicles/src/main/java/com/fakhry/transjakarta/feature/vehicles/presentation/VehicleListViewModel.kt:85 | every character of a number written in decimal is a digit |
| Text.Pad2RoundTrip | feature/vehicles/src/main/java/com/fakhry/transjakarta/feature/vehicles/presentation/VehicleListViewModel.kt:85 | reading back a zero-padded number gives the number |
| Text.ParseLong | feature/vehicles/src/main/java/com/fakhry/transjakarta/feature/vehicles/data/paging/VehiclePagingSource.kt:59 | `toLongOrNull`: null for the empty string, never outside the Long range, and an unsigned digit string reads as its decimal value; ParseLongToString shows it inverts the decimal form |
| Text.ParseLongToString | feature/vehicles/src/main/java/com/fakhry/transjakarta/feature/vehicles/data/paging/VehiclePagingSource.kt:59 | toLongOrNull reads back the decimal form of every non-negative Long |
| Paging.NextKey | feature/vehicles/src/main/java/com/fakhry/transjakarta/feature/vehicles/data/paging/VehiclePagingSource.kt:40-44 | there is no next key exactly when the page is short; otherwise it is the offset plus the page size |
| Paging.PrevKey | feature/vehicles/src/main/java/com/fakhry/transjakarta/feature/vehicles/data/paging/VehiclePagingSource.kt:46-50 | there is no previous key exactly at offset 0; otherwise it is the offset minus the page size, clamped at 0 |
| Paging.NextPrevRoundTrip | feature/vehicles/src/main/java/com/fakhry/transjakarta/feature/vehicles/data/paging/VehiclePagingSource.kt:40-50 | from any full page, the next page's previous key leads back to this page's offset |
| Paging.OffsetOf | feature/vehicles/src/main/java/com/fakhry/transjakarta/feature/vehicles/data/paging/VehiclePagingSource.kt:29 | a missing key is offset 0; the Load contracts of both sources state their request offset through it |
| Paging.RefreshKey | feature/vehicles/src/main/java/com/fakhry/transjakarta/feature/vehicles/data/paging/VehiclePagingSource.kt:18-25 | no refresh key without an anchor or a page; otherwise the page's previous key plus the page size, or failing that its next key minus the page size |
| Paging.RefreshResumesAtLoadedOffset | feature/vehicles/src/main/java/com/fakhry/transjakarta/feature/vehicles/data/paging/VehiclePagingSource.kt:18-50 | refreshing anchored on a page that this source produced resumes at that page's own offset |
| VehiclePaging.RateLimitMessage | feature/vehicles/src/main/java/com/fakhry/transjakarta/feature/vehicles/data/paging/VehiclePagingSource.kt:70-81 | no reset time gives the "try again later" text; a reset time at or before now gives "try again soon"; a later one gives the "has been reset" text |
| VehiclePaging.IsTooManyRequests | feature/vehicles/src/main/java/com/fakhry/transjakarta/feature/vehicles/data/paging/VehiclePagingSource.kt:58 | exactly an HTTP failure with status 429; the vehicle Load contract turns exactly these into a rate-limit error |
| VehiclePaging.Load | feature/vehicles/src/main/java/com/fakhry/transjakarta/feature/vehicles/data/paging/VehiclePagingSource.kt:28-68 | requests the key's offset (0 without a key) with limit 10 and the built filter query; a returned page is mapped with the next and previous key rules; a 429 becomes a rate-limit error carrying the parsed reset header and its message; any other failure is passed through unchanged |
| VehiclePaging.VehicleRefreshKey | feature/vehicles/src/main/java/com/fakhry/transjakarta/feature/vehicles/data/paging/VehiclePagingSource.kt:18-25 | no key without an anchor or page; otherwise the page's previous key plus 10, else its next key minus 10, else none |
| VehiclePaging.VehicleKeysExample | feature/vehicles/src/main/java/com/fakhry/transjakarta/feature/vehicles/data/paging/VehiclePagingSource.kt:40-50 | the first page has no previous key and its next key is 10; page 10 goes back to 0 and on to 20; refreshing on the page between 0 and 20 gives 10 |
| TripPaging.Load | feature/vehicles/src/main/java/com/fakhry/transjakarta/feature/vehicles/data/paging/TripPagingSource.kt:26-58 | requests the key's offset with limit 20 and the built trip query; a returned page holds the mapped trips in order with the next and previous key rules; every failure is passed through unchanged |
| TripPaging.LoadFiltered | feature/vehicles/src/main/java/com/fakhry/transjakarta/feature/vehicles/data/repository/TripRepositoryImpl.kt:24-35 | empty filters make no request and give an empty page with no keys; otherwise exactly one request with the non-empty query, the key's offset and limit 20, and the result is that of Load: the mapped trips in order with both key rules when the call returns, the thrown failure unchanged when it throws |
| TripPaging.TripRefreshKey | feature/vehicles/src/main/java/com/fakhry/transjakarta/feature/vehicles/data/paging/TripPagingSource.kt:16-24 | no key without an anchor or page; otherwise the page's previous key plus 20, else its next key minus 20, else none |
| RouteSort.SortKey | feature/vehicles/src/main/java/com/fakhry/transjakarta/feature/vehicles/data/repository/RouteRepositoryImpl.kt:38 | the short name unless it is blank, then the long name |
| RouteSort.SortRoutes | feature/vehicles/src/main/java/com/fakhry/transjakarta/feature/vehicles/data/repository/RouteRepositoryImpl.kt:37-38 | `sortedBy` on the display key; SortRoutesSpec shows it is a permutation, ordered by key and stable |
| RouteSort.InsertSorted | feature/vehicles/src/main/java/com/fakhry/transjakarta/feature/vehicles/data/repository/RouteRepositoryImpl.kt:37-38 | inserting into a sorted list keeps it sorted and adds exactly that route |
| RouteSort.InsertWithKey | feature/vehicles/src/main/java/com/fakhry/transjakarta/feature/vehicles/data/repository/RouteRepositoryImpl.kt:37-38 | insertion puts the new route before every other route with the same key |
| RouteSort.SortRoutesSpec | feature/vehicles/src/main/java/com/fakhry/transjakarta/feature/vehicles/data/repository/RouteRepositoryImpl.kt:37-38 | the sort is a permutation, it is ordered by the key, and it is stable: routes with equal keys keep their relative order |
| RouteSort.SortKeyExample | feature/vehicles/src/main/java/com/fakhry/transjakarta/feature/vehicles/data/repository/RouteRepositoryImpl.kt:37-38 | a route with a blank short name sorts by its long name |
| RouteRepository.FetchFrom | feature/vehicles/src/main/java/com/fakhry/transjakarta/feature/vehicles/data/repository/RouteRepositoryImpl.kt:26-35 | the page loop makes at least one request |
| RouteRepository.Requests | feature/vehicles/src/main/java/com/fakhry/transjakarta/feature/vehicles/data/repository/RouteRepositoryImpl.kt:26-34 | the i-th request asks for offset i*100 with limit 100 |
| RouteRepository.RoutesResult | feature/vehicles/src/main/java/com/fakhry/transjakarta/feature/vehicles/data/repository/RouteRepositoryImpl.kt:37-54 | success gives the sorted routes; a failure gives the same mapping as mapNetworkCall |
| RouteRepository.FetchFromSpec | feature/vehicles/src/main/java/com/fakhry/transjakarta/feature/vehicles/data/repository/RouteRepositoryImpl.kt:26-35 | every page before the last is full; the fetch fails exactly when the last page threw; on success the last page is short and the routes are all pages in order |
| RouteRepository.FirstWithId | feature/vehicles/src/main/java/com/fakhry/transjakarta/feature/vehicles/data/repository/RouteRepositoryImpl.kt:58 | absent exactly when no route has the id; when present, it is a route of the list with that id and no earlier one has it |
| RouteRepository.RouteRepositoryImpl.constructor | feature/vehicles/src/main/java/com/fakhry/transjakarta/feature/vehicles/data/repository/RouteRepositoryImpl.kt:19 | the cache starts empty |
| RouteRepository.RouteRepositoryImpl.GetRoutes | feature/vehicles/src/main/java/com/fakhry/transjakarta/feature/vehicles/data/repository/RouteRepositoryImpl.kt:21-55 | a cached list is returned with no request; otherwise it requests offsets 0, 100, 200 and so on until a short page or a failure, returns the sorted routes or the mapped error, and caches only on success |
| RouteRepository.RouteRepositoryImpl.GetRouteById | feature/vehicles/src/main/java/com/fakhry/transjakarta/feature/vehicles/data/repository/RouteRepositoryImpl.kt:57-61 | a cached route with the id is served without a request; otherwise exactly one request, for that id, whose route or failure is mapped as mapNetworkCall does |
| RateLimit.RemainingSeconds | feature/vehicles/src/main/java/com/fakhry/transjakarta/feature/vehicles/presentation/VehicleListViewModel.kt:79-80 | never negative; zero exactly when the reset time has passed, otherwise the seconds left |
| RateLimit.RemainingNonIncreasing | feature/vehicles/src/main/java/com/fakhry/transjakarta/feature/vehicles/presentation/VehicleListViewModel.kt:79-80 | a later clock reading never shows more seconds left |
| RateLimit.FormatCountdown | feature/vehicles/src/main/java/com/fakhry/transjakarta/feature/vehicles/presentation/VehicleListViewModel.kt:82-86 | `%02d:%02d` of minutes and seconds; CountdownLabelShape shows at least two minute digits, a colon and exactly two second digits (five characters below 100 minutes), and CountdownRoundTrip shows the label reads back to the seconds it was made from |
| RateLimit.CountdownLabelShape | feature/vehicles/src/main/java/com/fakhry/transjakarta/feature/vehicles/presentation/VehicleListViewModel.kt:82-86 | the label is mm:ss with the colon three characters from the end, and exactly five characters below 100 minutes |
| RateLimit.ParseCountdown | feature/vehicles/src/main/java/com/fakhry/transjakarta/feature/vehicles/presentation/VehicleListViewModel.kt:82-86 | the reading-back inverse of the countdown label that CountdownRoundTrip is proved against; a label reads back to a non-negative number of seconds |
| RateLimit.CountdownRoundTrip | feature/vehicles/src/main/java/com/fakhry/transjakarta/feature/vehicles/presentation/VehicleListViewModel.kt:82-86 | reading back the label of any number of seconds gives that number |
| RateLimit.TickState | feature/vehicles/src/main/java/com/fakhry/transjakarta/feature/vehicles/presentation/VehicleListViewModel.kt:60-72 | the published remaining seconds are those until the reset; retry is enabled exactly when the time is up |
| RateLimit.TickStateText | feature/vehicles/src/main/java/com/fakhry/transjakarta/feature/vehicles/presentation/VehicleListViewModel.kt:61-67 | the label formats the remaining seconds; before the reset the message is the retry text with that label; at or after it, the error's own message or the "try again soon" text |
| RateLimit.CountdownLabelExamples | feature/vehicles/src/main/java/com/fakhry/transjakarta/feature/vehicles/presentation/VehicleListViewModel.kt:85 | 0 seconds is "00:00" and 2 seconds is "00:02" |
| RateLimit.TickBeforeResetExample | feature/vehicles/src/main/java/com/fakhry/transjakarta/feature/vehicles/presentation/VehicleListViewModel.kt:62-64 | two seconds before the reset the message is "Rate limit exceeded. Retry in 00:02." |
| RateLimit.TickAtResetExample | feature/vehicles/src/main/java/com/fakhry/transjakarta/feature/vehicles/presentation/VehicleListViewModel.kt:65-67 | at the reset the error's own message is shown with "00:00" |
| RateLimit.NoResetState | feature/vehicles/src/main/java/com/fakhry/transjakarta/feature/vehicles/presentation/VehicleListViewModel.kt:43-51 | without a reset time the state is final: the error's message or "try again soon", 0 seconds, "00:00" |
| RateLimit.Ticks | feature/vehicles/src/main/java/com/fakhry/transjakarta/feature/vehicles/presentation/VehicleListViewModel.kt:59-75 | one published state per clock reading |
| RateLimit.TicksAt | feature/vehicles/src/main/java/com/fakhry/transjakarta/feature/vehicles/presentation/VehicleListViewModel.kt:59-75 | the i-th published state is the tick for the i-th reading |
| RateLimit.TicksNonIncreasing | feature/vehicles/src/main/java/com/fakhry/transjakarta/feature/vehicles/presentation/VehicleListViewModel.kt:59-75 | with a clock that never goes back, the countdown never increases, and once retry is enabled it stays enabled |
| RateLimit.VehicleListViewModel.constructor | feature/vehicles/src/main/java/com/fakhry/transjakarta/feature/vehicles/presentation/VehicleListViewModel.kt:35-38 | no state, no reset time, no job |
| RateLimit.VehicleListViewModel.OnRateLimitDetected | feature/vehicles/src/main/java/com/fakhry/transjakarta/feature/vehicles/presentation/VehicleListViewModel.kt:41-77 | without a reset time the job is cancelled and the final state shown; the same reset time with a running job changes nothing; any other reset time replaces the job |
| RateLimit.VehicleListViewModel.RunCountdown | feature/vehicles/src/main/java/com/fakhry/transjakarta/feature/vehicles/presentation/VehicleListViewModel.kt:59-75 | publishes one tick per reading until the first reading at or after the reset, then ends the job; the shown state is the last one published; no job means nothing is published |
| Relations.Safe | feature/vehicles/src/main/java/com/fakhry/transjakarta/feature/vehicles/domain/usecase/GetVehicleDetailWithRelationsUseCase.kt:88-110 | a value exactly when the lookup succeeded; errors and empty results are dropped |
| Relations.LookupIfPresent | feature/vehicles/src/main/java/com/fakhry/transjakarta/feature/vehicles/domain/usecase/GetVehicleDetailWithRelationsUseCase.kt:67-72 | no lookup without an id; otherwise the safe result of looking up that id |
| Relations.RelationLookupsMembers | feature/vehicles/src/main/java/com/fakhry/transjakarta/feature/vehicles/domain/usecase/GetVehicleDetailWithRelationsUseCase.kt:60-72 | at most four relation lookups and never the vehicle again; route, trip and stop are looked up exactly when the vehicle names them, the shape exactly when a trip was found that names one |
| Relations.RelationLookupsOrder | feature/vehicles/src/main/java/com/fakhry/transjakarta/feature/vehicles/domain/usecase/GetVehicleDetailWithRelationsUseCase.kt:71-72 | the trip is looked up before the shape |
| Relations.GetVehicleDetailWithRelations | feature/vehicles/src/main/java/com/fakhry/transjakarta/feature/vehicles/domain/usecase/GetVehicleDetailWithRelationsUseCase.kt:49-86 | the vehicle is looked up first; its error is passed on without data and its empty result gives Empty, both with no further lookups; on success each relation is its safe lookup and the shape comes from the found trip's shape id |
| UiMappers.FormatStatus | feature/vehicles/src/main/java/com/fakhry/transjakarta/feature/vehicles/presentation/mapper/VehicleUiMapper.kt:21-26 | the fixed label of each status |
| UiMappers.FormatStatusInjective | feature/vehicles/src/main/java/com/fakhry/transjakarta/feature/vehicles/presentation/mapper/VehicleUiMapper.kt:21-26 | different statuses get different labels |
| UiMappers.FormatUpdatedAt | core/utils/src/main/java/com/fakhry/transjakarta/utils/date/DateUtils.kt:13-14 | a blank timestamp is "Unknown"; any other goes to the date formatter |
| UiMappers.VehicleToUiModel | feature/vehicles/src/main/java/com/fakhry/transjakarta/feature/vehicles/presentation/mapper/VehicleUiMapper.kt:10-19 | identity, status and coordinates are copied, with the status label and the date label added |
| UiMappers.RouteDirection | feature/vehicles/src/main/java/com/fakhry/transjakarta/feature/vehicles/presentation/mapper/VehicleUiMapper.kt:34-47 | empty without a route, a direction or two destinations; direction 0 reads second to first, any other direction first to second |
| UiMappers.RouteNames | feature/vehicles/src/main/java/com/fakhry/transjakarta/feature/vehicles/presentation/mapper/VehicleUiMapper.kt:50-53 | the non-blank names, at most two and distinct; none exactly when both names are blank |
| UiMappers.NotBlankConcat | feature/vehicles/src/main/java/com/fakhry/transjakarta/feature/vehicles/presentation/mapper/VehicleUiMapper.kt:53 | joining a non-blank part never yields a blank label |
| UiMappers.FixedLabelsNotBlank | feature/vehicles/src/main/java/com/fakhry/transjakarta/feature/vehicles/presentation/mapper/VehicleUiMapper.kt:57-71 | the fallback labels are not blank |
| UiMappers.JoinedNames | feature/vehicles/src/main/java/com/fakhry/transjakarta/feature/vehicles/presentation/mapper/VehicleUiMapper.kt:49-54 | the joined route names are blank only when there are none; two names read "short - long" |
| UiMappers.JoinedNamesOf | feature/vehicles/src/main/java/com/fakhry/transjakarta/feature/vehicles/presentation/mapper/VehicleUiMapper.kt:49-54 | the same for an optional route |
| UiMappers.RouteLabel | feature/vehicles/src/main/java/com/fakhry/transjakarta/feature/vehicles/presentation/mapper/VehicleUiMapper.kt:49-54 | never blank; the joined names of the route, else the vehicle's route id, else "Unknown Route" |
| UiMappers.TripLabel | feature/vehicles/src/main/java/com/fakhry/transjakarta/feature/vehicles/presentation/mapper/VehicleUiMapper.kt:56-58 | never blank; headsign, else name, else "Unscheduled" for a found trip; otherwise the trip id or "Unknown Trip" |
| UiMappers.StopLabel | feature/vehicles/src/main/java/com/fakhry/transjakarta/feature/vehicles/presentation/mapper/VehicleUiMapper.kt:60 | never blank; the stop's name or the stop id, else "Unknown Stop" |
| UiMappers.DetailToUiModel | feature/vehicles/src/main/java/com/fakhry/transjakarta/feature/vehicles/presentation/mapper/VehicleUiMapper.kt:31-78 | every field from its own rule; none of the three relation labels is blank; a missing bearing is 0; the polyline is empty without a shape |
| UiMappers.RouteOption | feature/vehicles/src/main/java/com/fakhry/transjakarta/feature/vehicles/presentation/mapper/FilterOptionUiMapper.kt:7-10 | keeps the id; the label is the short name, else the long name, else the id |
| UiMappers.TripPrimary | feature/vehicles/src/main/java/com/fakhry/transjakarta/feature/vehicles/presentation/mapper/FilterOptionUiMapper.kt:15 | name, else headsign, else id |
| UiMappers.TripOption | feature/vehicles/src/main/java/com/fakhry/transjakarta/feature/vehicles/presentation/mapper/FilterOptionUiMapper.kt:12-18 | keeps the id; the label always ends with the id; it is the bare id exactly when the primary text is the id, otherwise "primary • id" |
| UiMappers.TripOptionExamples | feature/vehicles/src/main/java/com/fakhry/transjakarta/feature/vehicles/presentation/mapper/FilterOptionUiMapper.kt:14-17 | "Local" with id t1 is "Local • t1"; a blank trip t2 is "t2" |
| FilterViewModel.Toggle | feature/vehicles/src/main/java/com/fakhry/transjakarta/feature/vehicles/presentation/FilterViewModel.kt:67-91 | flips the id's membership and leaves every other id as it was |
| FilterViewModel.ToggleTwice | feature/vehicles/src/main/java/com/fakhry/transjakarta/feature/vehicles/presentation/FilterViewModel.kt:67-91 | toggling the same id twice restores the selection |
| FilterViewModel.TripFiltersOf | feature/vehicles/src/main/java/com/fakhry/transjakarta/feature/vehicles/presentation/FilterViewModel.kt:44-49 | the trip filters are the selected routes and the trip query, and they are empty exactly when no route is selected and the query is blank |
| FilterViewModel.RoutesErrorText | feature/vehicles/src/main/java/com/fakhry/transjakarta/feature/vehicles/presentation/FilterViewModel.kt:150-170 | a network error or an IOException shows the fixed network text; any other error shows its message unless blank; any other exception shows its message unless null; the fallback is "Failed to load routes" |
| FilterViewModel.RoutesErrorTextNotBlankForResults | feature/vehicles/src/main/java/com/fakhry/transjakarta/feature/vehicles/presentation/FilterViewModel.kt:150-156 | an error result never shows a blank text |
| FilterViewModel.RoutesErrorExamples | feature/vehicles/src/main/java/com/fakhry/transjakarta/feature/vehicles/presentation/FilterViewModel.kt:151 | "Boom" shows as "Boom"; a blank message shows "Failed to load routes" |
| FilterViewModel.RouteOptions | feature/vehicles/src/main/java/com/fakhry/transjakarta/feature/vehicles/presentation/FilterViewModel.kt:132 | one option per route, in order, with the route's id |
| FilterViewModel.FilterViewModelImpl.constructor | feature/vehicles/src/main/java/com/fakhry/transjakarta/feature/vehicles/presentation/FilterViewModel.kt:38-41 | nothing selected or applied, and the routes are loading |
| FilterViewModel.FilterViewModelImpl.ToggleRouteSelection | feature/vehicles/src/main/java/com/fakhry/transjakarta/feature/vehicles/presentation/FilterViewModel.kt:67-79 | flips the route and clears every trip selection; nothing else changes |
| FilterViewModel.FilterViewModelImpl.ToggleTripSelection | feature/vehicles/src/main/java/com/fakhry/transjakarta/feature/vehicles/presentation/FilterViewModel.kt:81-91 | flips the trip; nothing else changes |
| FilterViewModel.FilterViewModelImpl.UpdateRouteSearchQuery | feature/vehicles/src/main/java/com/fakhry/transjakarta/feature/vehicles/presentation/FilterViewModel.kt:93-95 | sets only the route query |
| FilterViewModel.FilterViewModelImpl.UpdateTripSearchQuery | feature/vehicles/src/main/java/com/fakhry/transjakarta/feature/vehicles/presentation/FilterViewModel.kt:97-99 | sets only the trip query |
| FilterViewModel.FilterViewModelImpl.ApplyFilters | feature/vehicles/src/main/java/com/fakhry/transjakarta/feature/vehicles/presentation/FilterViewModel.kt:101-106 | the applied filters become exactly the current selections; the screen state is unchanged |
| FilterViewModel.FilterViewModelImpl.ClearFilters | feature/vehicles/src/main/java/com/fakhry/transjakarta/feature/vehicles/presentation/FilterViewModel.kt:108-116 | empties both selections and applies empty filters |
| FilterViewModel.FilterViewModelImpl.ClearRoutes | feature/vehicles/src/main/java/com/fakhry/transjakarta/feature/vehicles/presentation/FilterViewModel.kt:118-120 | empties only the route selection |
| FilterViewModel.FilterViewModelImpl.ClearTrips | feature/vehicles/src/main/java/com/fakhry/transjakarta/feature/vehicles/presentation/FilterViewModel.kt:122-124 | empties only the trip selection |
| FilterViewModel.FilterViewModelImpl.StartLoadRoutes | feature/vehicles/src/main/java/com/fakhry/transjakarta/feature/vehicles/presentation/FilterViewModel.kt:126-128 | routes loading, any previous error cleared |
| FilterViewModel.FilterViewModelImpl.CompleteLoadRoutes | feature/vehicles/src/main/java/com/fakhry/transjakarta/feature/vehicles/presentation/FilterViewModel.kt:129-177 | loading ends; success replaces the options and clears the error; Empty leaves no options; an error or an exception keeps the options and sets RoutesErrorText; selections and queries are kept |
| DetailViewModel.LoadedState | feature/vehicles/src/main/java/com/fakhry/transjakarta/feature/vehicles/presentation/VehicleDetailViewModel.kt:50-67 | never Loading; success shows the mapped detail; an error keeps message, code and network flag and maps any partial data; Empty shows UiEmpty |
| DetailViewModel.LastSuccessSpec | feature/vehicles/src/main/java/com/fakhry/transjakarta/feature/vehicles/presentation/VehicleDetailViewModel.kt:73-81 | absent exactly when no answer succeeded; otherwise the detail of a successful answer after which none succeeded |
| DetailViewModel.VehicleDetailViewModelImpl.constructor | feature/vehicles/src/main/java/com/fakhry/transjakarta/feature/vehicles/presentation/VehicleDetailViewModel.kt:28-40 | starts Loading, not polling, with no detail |
| DetailViewModel.VehicleDetailViewModelImpl.Retry | feature/vehicles/src/main/java/com/fakhry/transjakarta/feature/vehicles/presentation/VehicleDetailViewModel.kt:42-48 | cancels polling and shows Loading |
| DetailViewModel.VehicleDetailViewModelImpl.CompleteLoad | feature/vehicles/src/main/java/com/fakhry/transjakarta/feature/vehicles/presentation/VehicleDetailViewModel.kt:49-67 | the use case is called for this view model's vehicle id; its answer is shown as LoadedState, and only a success records the detail and starts polling |
| DetailViewModel.VehicleDetailViewModelImpl.Poll | feature/vehicles/src/main/java/com/fakhry/transjakarta/feature/vehicles/presentation/VehicleDetailViewModel.kt:71-84 | without polling nothing changes; otherwise the last successful answer's detail is recorded and shown, errors are ignored, and a shown success is never replaced by anything but a success |

## Left out

- Coroutines, `Job`s, `delay`, `debounce`, `flatMapLatest`, `cachedIn` and the state flows are not modelled. Each launched body is modelled as a method run to completion, and its start and end are separate methods where other calls may come in between (`StartLoadRoutes`/`CompleteLoadRoutes`, `Retry`/`CompleteLoad`).
- The paging library's internals are not modelled: the anchor page given to `getRefreshKey` and the key given to `load` are inputs.
- Floating point: coordinates are reals. The `"%.6f, %.6f"` coordinate labels and the bearing's `toFloat` are not modelled, and the bearing stays an integer.
- `DateUtils`' date parsing and formatting are not modelled. Only its blank check is; the formatter itself is the `formatDate` parameter.
- The wall clock is not modelled: `now` and the clock readings are parameters. `RunCountdown` takes one reading per tick, standing in for the one-second `delay`.
- `e.printStackTrace()` in the paging sources is not modelled.
- Int and Long overflow is not modelled. Offsets, page sizes and seconds are unbounded integers, and `ParseLong` alone enforces the Long range.
- `isBlank`/`trim` use the ASCII and Unicode space characters that Java treats as whitespace. `toLongOrNull` is modelled for ASCII digits only.
- `LexLeq` compares characters by code point. Kotlin compares UTF-16 code units, which differ only for characters outside the Basic Multilingual Plane.
- The query maps are `map`s: the insertion order of `linkedMapOf`/`mutableMapOf` is not modelled.
- DetailViewModel.VehicleDetailViewModelImpl.Poll: the answers of the polling rounds come in as a sequence. That the use case is called for the view model's own vehicle id in each round is not stated; `CompleteLoad` states it for the first load.
- RouteRepository.RouteRepositoryImpl.GetRoutes: the route server is a finite sequence of page outcomes that answers an empty page past its end. The loop therefore always ends, whereas the source would loop forever against a server that never returns a short page.
- The stop and shape repositories and `getVehicleDetail` are not part of this model. The use case receives them as lookup functions.
- `FilterOptionUiModel.kt` is not part of this model; the option is modelled as an id and a label.
- `Route.directionDestinations` is modelled, but the route mapper always gives an empty list, matching the mapper as written. `Trip.shapeId` is taken from the trip resource's shape relationship. Bearing and direction id are attributes of the vehicle resource.
- RateLimit.VehicleListViewModel.OnRateLimitDetected: the rate-limit exception is given as its reset time and message. Whether the old job "is active" is modelled as whether a job is held. A new countdown publishes nothing until `RunCountdown` runs, whereas in the app the launched job may publish its first tick before `onRateLimitDetected` returns.
- `VehicleListViewModel`'s paging flow and `VehicleDetailViewModel`'s `vehicleId` lookup in the saved state are wiring only and are not modelled.
