# Logistics dashboard core in Dafny

This project models the logic of a logistics dashboard (a React/Redux front end over an Express REST
backend) and proves properties of it. There are four parts:

- **Redux slices.** The fleet, driver, delivery, maintenance, route, cargo, customer, fuel, chatbot and
  dashboard slices are each a `class` whose fields are the slice state, with one method per reducer.
  The reducers mutate in place (`push`, `findIndex` then an indexed assignment, a field assignment on
  a `find` result), so every method names in `modifies` only the fields it changes. Its `ensures`
  ties the new state to a reference function: `Seqs.UpdateFirst` or `Seqs.ReplaceFirst`,
  `FleetSlice.MergeFilters`, or append.
- **Screen rules.** These are the search and filter callbacks of the management screens, the colour
  bands for risk, fatigue and condition scores, the status and priority badges, and the counter cards.
  Also modelled: the capped route optimisation, the chatbot's keyword matcher, the send guard, the
  cargo modal cell and the `useAuth` checks. Pure rules are functions and lemmas. The component state
  cells that handlers step through (`isOptimizing`, `selectedRoute`, `selectedCargo`, `input`) are
  classes.
- **SQL builders.** These are the parameterised SQL builders of the route, delivery, maintenance,
  driver and vehicle endpoints. The list handlers grow `query` and `params` filter by filter. The
  status handlers grow `updates` and `params`. Each step is an imperative method proved against one
  reference numbering, `Sql.Numbered`. `Sql.NumberedSpec` and `Sql.PlaceholderRefersToParam` prove
  that numbering consistent: one placeholder per present input, numbered consecutively, with `$n`
  bound to `params[n-1]`, which is that input's value.
- **Responses and events.** The 404/500 rules, the create defaults and the socket events the handlers
  emit after a successful update.

JavaScript values are modelled by `Js.JsValue`, whose truthiness is `Js.Truthy`. `x || d` is `Js.Or`,
and a destructuring default is `Js.DefaultIfUndefined`. Numbers are `real`. Strings are `seq<char>`;
`toLowerCase` and `trim` are modelled on ASCII (module `Text`).

## Model

| member | source | states |
|---|---|---|
| FleetSlice.FleetStore.constructor | src/store/slices/fleetSlice.ts:48-57 | The initial state has no vehicles, empty status and type lists, is not loading, and has no selection and no error |
| FleetSlice.FleetStore.SetVehicles | src/store/slices/fleetSlice.ts:63-65 | The vehicle list becomes the payload; the frame lets no other field change |
| FleetSlice.FleetStore.AddVehicle | src/store/slices/fleetSlice.ts:66-68 | The vehicle is appended after the old list, which keeps its order |
| FleetSlice.FleetStore.UpdateVehicle | src/store/slices/fleetSlice.ts:69-74 | The new list is `ReplaceFirst` of the old one: the first vehicle with the payload's id is replaced, and nothing changes when no id matches |
| FleetSlice.FleetStore.SelectVehicle | src/store/slices/fleetSlice.ts:75-77 | Only the selected vehicle changes; it becomes the payload |
| FleetSlice.FleetStore.UpdateVehicleLocation | src/store/slices/fleetSlice.ts:78-83 | The new list is `UpdateFirst` with `Relocated`: only the first vehicle with the id gets the new location |
| FleetSlice.FleetStore.SetFilters | src/store/slices/fleetSlice.ts:84-86 | The filters become `MergeFilters(old, patch)` |
| FleetSlice.FleetStore.SetLoading | src/store/slices/fleetSlice.ts:87-89 | Only `loading` changes |
| FleetSlice.FleetStore.SetError | src/store/slices/fleetSlice.ts:90-92 | Only `error` changes |
| FleetSlice.MergeFilters | src/store/slices/fleetSlice.ts:84-86 | A key present in the patch overwrites its list; an absent key keeps the previous list |
| FleetSlice.MergeFiltersTwice | src/store/slices/fleetSlice.ts:84-86 | Two successive patches equal one patch in which the later key wins |
| FleetSlice.RelocateUnknownIsNoOp | src/store/slices/fleetSlice.ts:78-83 | A location update whose id names no vehicle leaves the list unchanged. This is what happens to the server's `vehicleLocationUpdate` payloads, which carry `vehicleId` and no `id` |
| FleetSlice.RelocateChangesOnlyLocation | src/store/slices/fleetSlice.ts:78-83 | The length is kept, every other vehicle is kept, and the matched vehicle differs only in `location` |
| Seqs.FindIndex | src/store/slices/fleetSlice.ts:70 | `findIndex`: -1 exactly when no element has the id; otherwise an index holding the id with no earlier match |
| Seqs.UpdateFirstAtFindIndex | src/store/slices/fleetSlice.ts:69-74 | The recursive reference `UpdateFirst` equals `findIndex` followed by one indexed assignment, and the identity when nothing is found |
| Seqs.UpdateFirst | src/store/slices/fleetSlice.ts:78-83 | Reference definition of "update the first element with the id"; its contract keeps the length, and `Seqs.UpdateFirstAtFindIndex` ties it to `findIndex` |
| Seqs.ReplaceFirst | src/store/slices/fleetSlice.ts:69-74 | Reference definition of the `updateX` reducers; its contract keeps the length, and `Seqs.ReplaceFirstSpec` states the rest |
| Seqs.ReplaceFirstSpec | src/store/slices/fleetSlice.ts:69-74 | `updateX` keeps the length, is a no-op for an unknown id, and otherwise puts the payload at the first match and keeps every other position |
| Seqs.ReplaceFirstIdempotent | src/store/slices/fleetSlice.ts:69-74 | Dispatching the same update twice is the same as once |
| DriverSlice.DriverStore.constructor | src/store/slices/driverSlice.ts:33-37 | The initial state is no drivers, not loading, no error |
| DriverSlice.DriverStore.SetDrivers | src/store/slices/driverSlice.ts:43-45 | The list becomes the payload; nothing else changes |
| DriverSlice.DriverStore.AddDriver | src/store/slices/driverSlice.ts:46-48 | The driver is appended; earlier drivers keep their order |
| DriverSlice.DriverStore.UpdateDriver | src/store/slices/driverSlice.ts:49-54 | The new list is `ReplaceFirst` of the old one |
| DriverSlice.DriverStore.UpdateDriverLocation | src/store/slices/driverSlice.ts:55-60 | The first driver with the id gets `Some(location)`, including a driver whose location was absent; no other driver changes |
| DriverSlice.LocateChangesOnlyLocation | src/store/slices/driverSlice.ts:55-60 | The length is kept, other drivers are kept, and the matched driver changes only in `location` |
| DriverSlice.DriverStore.SetLoading | src/store/slices/driverSlice.ts:61-63 | Only `loading` changes |
| DriverSlice.DriverStore.SetError | src/store/slices/driverSlice.ts:64-66 | Only `error` changes |
| DeliverySlice.DeliveryStore.constructor | src/store/slices/deliverySlice.ts:36-40 | The initial state is no deliveries, not loading, no error |
| DeliverySlice.DeliveryStore.SetDeliveries | src/store/slices/deliverySlice.ts:46-48 | The list becomes the payload |
| DeliverySlice.DeliveryStore.AddDelivery | src/store/slices/deliverySlice.ts:49-51 | The delivery is appended |
| DeliverySlice.DeliveryStore.UpdateDelivery | src/store/slices/deliverySlice.ts:52-57 | The new list is `ReplaceFirst` of the old one |
| DeliverySlice.DeliveryStore.SetLoading | src/store/slices/deliverySlice.ts:58-60 | Only `loading` changes |
| DeliverySlice.DeliveryStore.SetError | src/store/slices/deliverySlice.ts:61-63 | Only `error` changes |
| MaintenanceSlice.MaintenanceStore.constructor | src/store/slices/maintenanceSlice.ts:28-33 | The initial state is both lists empty, not loading, no error |
| MaintenanceSlice.MaintenanceStore.SetRecords | src/store/slices/maintenanceSlice.ts:39-41 | Only `records` changes |
| MaintenanceSlice.MaintenanceStore.SetAlerts | src/store/slices/maintenanceSlice.ts:42-44 | Only `alerts` changes |
| MaintenanceSlice.MaintenanceStore.AddRecord | src/store/slices/maintenanceSlice.ts:45-47 | The record is appended to `records`; `alerts` is outside the frame |
| MaintenanceSlice.MaintenanceStore.UpdateRecord | src/store/slices/maintenanceSlice.ts:48-53 | `records` becomes `ReplaceFirst` of the old records; `alerts` is never searched or changed |
| MaintenanceSlice.MaintenanceStore.SetLoading | src/store/slices/maintenanceSlice.ts:54-56 | Only `loading` changes |
| MaintenanceSlice.MaintenanceStore.SetError | src/store/slices/maintenanceSlice.ts:57-59 | Only `error` changes |
| RouteSlice.RouteStore.constructor | src/store/slices/routeSlice.ts:30-35 | The initial state is both lists empty, not loading, no error |
| RouteSlice.RouteStore.SetRoutes | src/store/slices/routeSlice.ts:41-43 | Only `routes` changes |
| RouteSlice.RouteStore.SetOptimizedRoutes | src/store/slices/routeSlice.ts:44-46 | Only `optimizedRoutes` changes |
| RouteSlice.RouteStore.AddRoute | src/store/slices/routeSlice.ts:47-49 | The route is appended to `routes`, never to `optimizedRoutes` |
| RouteSlice.RouteStore.UpdateRoute | src/store/slices/routeSlice.ts:50-55 | `routes` becomes `ReplaceFirst` of the old routes; `optimizedRoutes` is untouched |
| RouteSlice.RouteStore.SetLoading | src/store/slices/routeSlice.ts:56-58 | Only `loading` changes |
| RouteSlice.RouteStore.SetError | src/store/slices/routeSlice.ts:59-61 | Only `error` changes |
| CargoSlice.CargoStore.constructor | src/store/slices/cargoSlice.ts:26-30 | The initial state is no cargo, not loading, no error |
| CargoSlice.CargoStore.SetCargos | src/store/slices/cargoSlice.ts:36-38 | The list becomes the payload |
| CargoSlice.CargoStore.AddCargo | src/store/slices/cargoSlice.ts:39-41 | The cargo is appended |
| CargoSlice.CargoStore.UpdateCargo | src/store/slices/cargoSlice.ts:42-47 | The new list is `ReplaceFirst` of the old one |
| CargoSlice.CargoStore.SetLoading | src/store/slices/cargoSlice.ts:48-50 | Only `loading` changes |
| CargoSlice.CargoStore.SetError | src/store/slices/cargoSlice.ts:51-53 | Only `error` changes |
| CustomerSlice.CustomerStore.constructor | src/store/slices/customerSlice.ts:26-30 | The initial state is no customers, not loading, no error |
| CustomerSlice.CustomerStore.SetCustomers | src/store/slices/customerSlice.ts:36-38 | The list becomes the payload |
| CustomerSlice.CustomerStore.AddCustomer | src/store/slices/customerSlice.ts:39-41 | The customer is appended |
| CustomerSlice.CustomerStore.UpdateCustomer | src/store/slices/customerSlice.ts:42-47 | The new list is `ReplaceFirst` of the old one |
| CustomerSlice.CustomerStore.SetLoading | src/store/slices/customerSlice.ts:48-50 | Only `loading` changes |
| CustomerSlice.CustomerStore.SetError | src/store/slices/customerSlice.ts:51-53 | Only `error` changes |
| FuelSlice.FuelStore.constructor | src/store/slices/fuelSlice.ts:26-30 | The initial state is no records, not loading, no error |
| FuelSlice.FuelStore.SetRecords | src/store/slices/fuelSlice.ts:36-38 | The list becomes the payload |
| FuelSlice.FuelStore.AddRecord | src/store/slices/fuelSlice.ts:39-41 | The record is appended |
| FuelSlice.FuelStore.UpdateRecord | src/store/slices/fuelSlice.ts:42-47 | The new list is `ReplaceFirst` of the old one |
| FuelSlice.FuelStore.SetLoading | src/store/slices/fuelSlice.ts:48-50 | Only `loading` changes |
| FuelSlice.FuelStore.SetError | src/store/slices/fuelSlice.ts:51-53 | Only `error` changes |
| ChatbotSlice.ChatbotStore.constructor | src/store/slices/chatbotSlice.ts:18-23 | The initial state is closed, no messages, not loading, no error |
| ChatbotSlice.ChatbotStore.AddMessage | src/store/slices/chatbotSlice.ts:29-31 | The message is appended; earlier messages keep their order |
| ChatbotSlice.ChatbotStore.SetMessages | src/store/slices/chatbotSlice.ts:32-34 | Only the message list changes; `isOpen` is outside the frame |
| ChatbotSlice.ChatbotStore.ToggleChat | src/store/slices/chatbotSlice.ts:35-37 | `isOpen` is negated |
| ChatbotSlice.ToggleTwice | src/store/slices/chatbotSlice.ts:35-37 | Toggling twice restores `isOpen` and leaves the messages unchanged |
| ChatbotSlice.ChatbotStore.SetLoading | src/store/slices/chatbotSlice.ts:38-40 | Only `loading` changes |
| ChatbotSlice.ChatbotStore.SetError | src/store/slices/chatbotSlice.ts:41-43 | Only `error` changes |
| DashboardSlice.DashboardStore.constructor | src/store/slices/dashboardSlice.ts:25-43 | The initial state is all eleven metrics zero, both lists empty, not loading, no error |
| DashboardSlice.DashboardStore.SetMetrics | src/store/slices/dashboardSlice.ts:49-51 | Only the metrics record changes |
| DashboardSlice.DashboardStore.SetRecentActivities | src/store/slices/dashboardSlice.ts:52-54 | Only the activity list changes |
| DashboardSlice.DashboardStore.SetAlerts | src/store/slices/dashboardSlice.ts:55-57 | Only the alert list changes |
| DashboardSlice.DashboardStore.SetLoading | src/store/slices/dashboardSlice.ts:58-60 | Only `loading` changes |
| DashboardSlice.DashboardStore.SetError | src/store/slices/dashboardSlice.ts:61-63 | Only `error` changes |
| Seqs.Filter | src/components/Fleet/FleetManagement.tsx:123 | `Array.filter`: the result is an order-preserving sub-list whose length is the count; it keeps exactly the elements satisfying the predicate |
| Seqs.Count | src/components/Deliveries/DeliveryManagement.tsx:204 | `filter(...).length` is at most the list length |
| Seqs.FilterKeepsAll | src/components/Fleet/FleetManagement.tsx:123 | A predicate every element satisfies keeps the whole list |
| Seqs.FilterAppend | src/components/Fleet/FleetManagement.tsx:182-184 | Filtering distributes over concatenation |
| Seqs.FilterExt | src/components/Fleet/FleetManagement.tsx:123 | Predicates that agree on every element filter alike |
| Seqs.CountExclusive | src/components/Deliveries/DeliveryManagement.tsx:204-228 | The counts of three pairwise exclusive predicates sum to at most the length |
| Text.Lower | src/components/Fleet/FleetManagement.tsx:124 | `toLowerCase` keeps the length, maps each upper-case letter A–Z to its lower-case letter (code + 32), keeps every other character, and so leaves no upper-case letter |
| Text.LowerIdempotent | src/components/AI/Chatbot.tsx:46 | Lower-casing twice equals lower-casing once |
| Text.IncludesIff | src/components/Fleet/FleetManagement.tsx:124 | `includes` holds iff the needle occurs at some position |
| Text.IncludesEmpty | src/components/Fleet/FleetManagement.tsx:124 | Every string includes the empty string |
| Text.TrimStart | src/components/AI/Chatbot.tsx:19 | The leading whitespace is removed: the result is a suffix, starts with no space, and the removed prefix is blank |
| Text.TrimEnd | src/components/AI/Chatbot.tsx:19 | The trailing whitespace is removed: the result is a prefix, ends with no space, and the removed suffix is blank |
| Text.TrimEmptyIffBlank | src/components/AI/Chatbot.tsx:19 | `trim()` is empty iff every character is whitespace |
| Text.Trim | src/components/AI/Chatbot.tsx:19 | `trim()` is the slice of the input between a blank prefix and a blank suffix; a non-empty result neither starts nor ends with whitespace |
| Text.Join | backend/routes/fleet.js:85 | Joining no parts gives "" and joining one part gives that part |
| Text.JoinAppend | backend/routes/fleet.js:85 | Joining one more part appends the separator and that part to the join of the others, so `join` puts the separator exactly between neighbours |
| Text.NatToString | backend/routes/routes.js:22 | The decimal rendering used in `$n` is non-empty and all digits |
| Text.ParseNatToString | backend/routes/routes.js:22 | Reading back a printed number gives the number |
| Text.NatToStringInjective | backend/routes/routes.js:22 | Different numbers print differently |
| Text.DigitChar | backend/routes/routes.js:22 | A digit value prints as a digit character |
| Js.Or | backend/routes/routes.js:161 | `a \|\| b` is one of its operands: `a` when `a` is truthy and `b` otherwise, and it is truthy exactly when one of them is |
| Js.DefaultIfUndefined | backend/routes/routes.js:83 | A destructuring default replaces only `undefined`; the result is undefined only when both the value and the default are |
| Js.OrVersusDefault | backend/routes/routes.js:150-152 | `\|\|` and a destructuring default differ exactly on falsy values other than `undefined` |
| Bands.AtMost | src/components/Fleet/FleetManagement.tsx:117-121 | The "higher is worse" bands: green iff x ≤ low, yellow iff low < x ≤ high, red otherwise |
| Bands.AtLeast | src/components/Cargo/CargoMonitoring.tsx:105-109 | The "higher is better" bands: green iff x ≥ high, yellow iff low ≤ x < high, red otherwise |
| Bands.AtMostMonotone | src/components/Fleet/FleetManagement.tsx:117-121 | A higher risk never gets a better colour |
| Bands.AtLeastAntitone | src/components/Cargo/CargoMonitoring.tsx:105-109 | A higher condition score never gets a worse colour |
| Bands.TextClass | src/components/Fleet/FleetManagement.tsx:117-121 | The three colour classes correspond one-to-one to the three bands |
| Selection.EmptyTermMatches | src/components/Fleet/FleetManagement.tsx:124-126 | The empty search term matches every field |
| Selection.FieldMatchesIff | src/components/Fleet/FleetManagement.tsx:124-126 | A field matches iff the lower-cased term occurs in the lower-cased field at some position |
| Selection.FieldMatchesIgnoresCase | src/components/Fleet/FleetManagement.tsx:124-126 | Matching does not depend on the case of the term |
| FleetManagement.FilteredVehicles | src/components/Fleet/FleetManagement.tsx:123-132 | An order-preserving sub-list of the vehicles that pass search, status list and type list: every listed one passes, every passing one is listed, and its length is the number of passing entries, so a repeated entry is listed as often as it occurs |
| FleetManagement.UnfilteredShowsAll | src/components/Fleet/FleetManagement.tsx:123-132 | An empty term with empty status and type lists lists every vehicle |
| FleetManagement.FilteredVehiclesIgnoresCase | src/components/Fleet/FleetManagement.tsx:124-126 | The list does not depend on the case of the search term |
| FleetManagement.MatchesSearch | src/components/Fleet/FleetManagement.tsx:124-126 | Definition (no contract): the term, lower-cased, occurs in the lower-cased registration number, make or model |
| FleetManagement.Shown | src/components/Fleet/FleetManagement.tsx:124-131 | Definition (no contract): search, status list and type list all admit the vehicle; an empty list admits every value |
| FleetManagement.StatusCheckbox | src/components/Fleet/FleetManagement.tsx:182-185 | The payload carries only a status list, which holds the box's status iff the box is checked |
| FleetManagement.TypeCheckbox | src/components/Fleet/FleetManagement.tsx:203-206 | The payload carries only a type list, which holds the box's type iff the box is checked |
| FleetManagement.ToggleChecked | src/components/Fleet/FleetManagement.tsx:182-184 | Checking appends the value after the old list; unchecking removes every occurrence, keeps the other entries in order, and keeps each of them as often as it occurs (the length is the count of entries other than the value) |
| FleetManagement.CheckThenUncheck | src/components/Fleet/FleetManagement.tsx:182-184 | Checking then unchecking a value not in the list gives the list back |
| FleetManagement.StatusCheckboxEffect | src/components/Fleet/FleetManagement.tsx:182-185 | After the dispatch the box's checked state equals the event's, and the type list is kept |
| FleetManagement.TypeCheckboxEffect | src/components/Fleet/FleetManagement.tsx:203-206 | After the dispatch the box's checked state equals the event's, and the status list is kept |
| FleetManagement.RiskColor | src/components/Fleet/FleetManagement.tsx:117-121 | Green iff risk ≤ 30, yellow iff 30 < risk ≤ 60, red iff risk > 60 |
| MaintenanceManagement.FilteredRecords | src/components/Maintenance/MaintenanceManagement.tsx:161-169 | An order-preserving sub-list of the records that pass search, status and priority: every listed one passes, every passing one is listed, and its length is the number of passing entries, so a repeated entry is listed as often as it occurs |
| MaintenanceManagement.MatchesSearch | src/components/Maintenance/MaintenanceManagement.tsx:162-163 | Definition (no contract): the term occurs, ignoring case, in the vehicle number or the description |
| MaintenanceManagement.Shown | src/components/Maintenance/MaintenanceManagement.tsx:162-168 | Definition (no contract): search matches and each select is 'all' or equals the field |
| MaintenanceManagement.UnfilteredShowsAll | src/components/Maintenance/MaintenanceManagement.tsx:161-169 | An empty term with both selects on 'all' lists every record |
| MaintenanceManagement.StatusColor | src/components/Maintenance/MaintenanceManagement.tsx:125-138 | Gray iff the status is not one of the four listed; completed is green, overdue red |
| MaintenanceManagement.PriorityColor | src/components/Maintenance/MaintenanceManagement.tsx:140-153 | Gray iff the priority is not one of the four listed; critical is red, low green |
| MaintenanceManagement.PriorityColorDistinct | src/components/Maintenance/MaintenanceManagement.tsx:140-153 | Distinct listed priorities get distinct badges |
| MaintenanceManagement.RiskColor | src/components/Maintenance/MaintenanceManagement.tsx:155-159 | Green iff risk ≤ 30, yellow iff 30 < risk ≤ 60, red iff risk > 60 |
| MaintenanceManagement.PendingCount | src/components/Maintenance/MaintenanceManagement.tsx:229 | The Pending card is the number of records whose status is 'pending', at most the number of records |
| MaintenanceManagement.IsPending | src/components/Maintenance/MaintenanceManagement.tsx:229 | Definition (no contract): the status is 'pending' |
| MaintenanceManagement.PendingCountMatchesFilter | src/components/Maintenance/MaintenanceManagement.tsx:229 | The Pending card equals the length of the list shown with an empty term, status 'pending' and priority 'all' |
| DeliveryManagement.FilteredDeliveries | src/components/Deliveries/DeliveryManagement.tsx:162-171 | An order-preserving sub-list of the deliveries that pass search, status and priority: every listed one passes, every passing one is listed, and its length is the number of passing entries, so a repeated entry is listed as often as it occurs |
| DeliveryManagement.MatchesSearch | src/components/Deliveries/DeliveryManagement.tsx:163-165 | Definition (no contract): the term occurs, ignoring case, in the tracking number, the pickup or the delivery location |
| DeliveryManagement.Shown | src/components/Deliveries/DeliveryManagement.tsx:163-170 | Definition (no contract): search matches and each select is 'all' or equals the field |
| DeliveryManagement.StatusFilterNarrows | src/components/Deliveries/DeliveryManagement.tsx:167 | Every delivery listed under a specific status is also listed under 'all' |
| DeliveryManagement.StatusColor | src/components/Deliveries/DeliveryManagement.tsx:126-139 | Gray iff the status is not one of the four listed; delivered is green, failed red |
| DeliveryManagement.PriorityColor | src/components/Deliveries/DeliveryManagement.tsx:141-154 | Red iff the priority is 'urgent'; gray iff it is not listed |
| DeliveryManagement.RiskColor | src/components/Deliveries/DeliveryManagement.tsx:156-160 | Green iff risk ≤ 10, yellow iff 10 < risk ≤ 30, red iff risk > 30 |
| DeliveryManagement.PredictionColors | src/components/Deliveries/DeliveryManagement.tsx:361-369 | The delay risk and the traffic impact are each red iff above 30 |
| DeliveryManagement.StatusCards | src/components/Deliveries/DeliveryManagement.tsx:193-228 | The total card is the list length; the in-transit, delivered and pending cards are the counts of deliveries with that status, and these three sum to at most the total |
| DriverManagement.FullName | src/components/Drivers/DriverManagement.tsx:144 | The searched name is the first name, one space, then the last name |
| DriverManagement.FilteredDrivers | src/components/Drivers/DriverManagement.tsx:143-151 | An order-preserving sub-list of the drivers that pass search and status: every listed one passes, every passing one is listed, and its length is the number of passing entries, so a repeated entry is listed as often as it occurs |
| DriverManagement.MatchesSearch | src/components/Drivers/DriverManagement.tsx:144-146 | Definition (no contract): the term occurs, ignoring case, in "first last", the e-mail or the licence number |
| DriverManagement.Shown | src/components/Drivers/DriverManagement.tsx:144-150 | Definition (no contract): search matches and the status select is 'all' or equals the status |
| DriverManagement.FullNameFindsDriver | src/components/Drivers/DriverManagement.tsx:144 | Searching for a driver's full name, in any case, finds that driver |
| DriverManagement.RiskColor | src/components/Drivers/DriverManagement.tsx:131-135 | Green iff risk ≤ 10, yellow iff 10 < risk ≤ 25, red iff risk > 25 |
| DriverManagement.FatigueColor | src/components/Drivers/DriverManagement.tsx:137-141 | Green iff fatigue ≤ 20, yellow iff 20 < fatigue ≤ 50, red iff fatigue > 50 |
| DriverManagement.HighFatigueIffRed | src/components/Drivers/DriverManagement.tsx:352 | The high-fatigue banner shows exactly when the fatigue figure is red |
| DriverManagement.HighFatigueAlert | src/components/Drivers/DriverManagement.tsx:352 | Definition (no contract): the banner shows when fatigue is above 50 |
| CargoMonitoring.StatusColor | src/components/Cargo/CargoMonitoring.tsx:79-87 | Gray iff the status is not one of the four listed; damaged is red |
| CargoMonitoring.TypeColor | src/components/Cargo/CargoMonitoring.tsx:89-97 | Gray iff the type is not one of the four listed ('general' falls here); hazardous is red |
| CargoMonitoring.RiskColor | src/components/Cargo/CargoMonitoring.tsx:99-103 | Green iff risk ≤ 10, yellow iff 10 < risk ≤ 25, red iff risk > 25 |
| CargoMonitoring.ConditionColor | src/components/Cargo/CargoMonitoring.tsx:105-109 | Green iff score ≥ 90, yellow iff 70 ≤ score < 90, red iff score < 70 |
| CargoMonitoring.ConditionAlertVersusColor | src/components/Cargo/CargoMonitoring.tsx:285 | Every red score raises the condition alert and no green one does; yellow raises it exactly for 70–79 |
| CargoMonitoring.TemperatureAlert | src/components/Cargo/CargoMonitoring.tsx:276 | Definition (no contract): the banner shows when the AI flags a temperature alert |
| CargoMonitoring.ConditionAlert | src/components/Cargo/CargoMonitoring.tsx:285 | Definition (no contract): the banner shows when the condition score is below 80 |
| CargoMonitoring.CargoScreen.constructor | src/components/Cargo/CargoMonitoring.tsx:22 | Nothing is selected and the modal is hidden |
| CargoMonitoring.CargoScreen.Inspect | src/components/Cargo/CargoMonitoring.tsx:206 | The cargo's id is selected, and the modal shows iff that id is non-empty (truthiness at line 299) |
| CargoMonitoring.CargoScreen.Cancel | src/components/Cargo/CargoMonitoring.tsx:326 | The selection is cleared and the modal is hidden |
| RouteOptimization.Min | src/components/Routes/RouteOptimization.tsx:91-93 | `Math.min` is a lower bound of both arguments and equals one of them |
| RouteOptimization.Optimized | src/components/Routes/RouteOptimization.tsx:86-95 | The copy keeps every other field and scales distance by 0.85 and time by 0.9. Each score becomes `min(cap, score + step)`: fuel efficiency +10 up to 95, traffic prediction +5 up to 95, ETA accuracy +3 up to 98, stated as the raised score below the threshold and the cap from it on |
| RouteOptimization.OptimizedAtCapKeepsScores | src/components/Routes/RouteOptimization.tsx:91-93 | Scores already at their caps stay there |
| RouteOptimization.OptimizedShortens | src/components/Routes/RouteOptimization.tsx:88-89 | A non-negative distance or time never grows and stays non-negative |
| RouteOptimization.OptimizeAll | src/components/Routes/RouteOptimization.tsx:113-122 | Same length and order as the routes; each entry is the optimised route with the same id |
| RouteOptimization.RouteScreen.constructor | src/components/Routes/RouteOptimization.tsx:22-23 | The screen starts with nothing optimising and no selected route |
| RouteOptimization.RouteScreen.HandleOptimizeRoute | src/components/Routes/RouteOptimization.tsx:76-105 | One optimised route is appended for a known id and nothing for an unknown one; afterwards `isOptimizing` is false and `selectedRoute` is null |
| RouteOptimization.RouteScreen.HandleOptimizeAll | src/components/Routes/RouteOptimization.tsx:107-130 | The optimised routes become `OptimizeAll(routes)` and `isOptimizing` ends false |
| Chatbot.ReplyFor | src/components/AI/Chatbot.tsx:48-72 | The reply is one of the seven fixed strings |
| Chatbot.BotResponse | src/components/AI/Chatbot.tsx:45-73 | The reply is one of the seven fixed strings |
| Chatbot.MentionsTwo | src/components/AI/Chatbot.tsx:48 | A two-keyword category is mentioned iff one of its keywords is included |
| Chatbot.MentionsThree | src/components/AI/Chatbot.tsx:52 | A three-keyword category is mentioned iff one of its keywords is included |
| Chatbot.BotResponseIsFirstMatch | src/components/AI/Chatbot.tsx:48-72 | The if-chain equals the table-driven first-match over the six categories in source order |
| Chatbot.ReplyForIsFirstMatch | src/components/AI/Chatbot.tsx:48-72 | On a lower-cased message the chain of keyword tests gives the reply of the first category in the table that the message mentions, or the general reply |
| Chatbot.FirstMatchFirstHitWins | src/components/AI/Chatbot.tsx:48-70 | The first mentioned category decides the reply, whatever later categories are mentioned |
| Chatbot.FirstMatchFallback | src/components/AI/Chatbot.tsx:72 | The fallback comes iff no category is mentioned |
| Chatbot.FallbackIffNoKeyword | src/components/AI/Chatbot.tsx:48-72 | The general reply comes exactly for messages containing none of the thirteen keywords |
| Chatbot.FleetBeforeFuel | src/components/AI/Chatbot.tsx:52-66 | A message with "truck" and no delivery keyword gets the fleet reply, even if it mentions fuel |
| Chatbot.BotResponseIgnoresCase | src/components/AI/Chatbot.tsx:46 | The reply does not depend on the case of the message |
| Chatbot.ChatPanel.constructor | src/components/AI/Chatbot.tsx:10 | The input starts empty |
| Chatbot.ChatPanel.HandleSend | src/components/AI/Chatbot.tsx:18-43 | A blank input changes nothing. Otherwise exactly one user message holding the untrimmed input is appended, the input is cleared, and the pending bot reply is `BotResponse` of the input before clearing |
| Chatbot.ChatPanel.SendDisabledIffBlank | src/components/AI/Chatbot.tsx:176 | The Send button is disabled exactly when `handleSend` would return early |
| Chatbot.ChatPanel.SendDisabled | src/components/AI/Chatbot.tsx:176 | Definition (no contract): the input trims to the empty string |
| Auth.HasPermission | src/hooks/useAuth.ts:7-9 | True iff a user exists, has a permission list, and the list contains the permission |
| Auth.HasRole | src/hooks/useAuth.ts:11-13 | True iff a user exists and has that role |
| Auth.NoWildcard | src/hooks/useAuth.ts:8 | A list `['all']` grants 'all' and nothing else |
| Auth.RoleGrantsNoPermission | src/hooks/useAuth.ts:7-13 | A user without a permission list has their role and no permission |
| Auth.SignedOutHasNothing | src/hooks/useAuth.ts:7-13 | With no user every check fails |
| Sql.Placeholder | backend/routes/routes.js:22 | Definition: `$` followed by the decimal digits of n; its meaning is stated by `Sql.PlaceholderRoundTrip` and `Sql.PlaceholderInjective` |
| Sql.PlaceholderRoundTrip | backend/routes/routes.js:22 | A placeholder starts with `$` and its digits read back as the number it was printed from |
| Sql.PlaceholderInjective | backend/routes/routes.js:22 | Different numbers give different placeholders |
| Sql.SmallPlaceholders | backend/routes/deliveries.js:114-125 | `$1` to `$4` print as expected |
| Sql.NumberedSpec | backend/routes/routes.js:21-34 | One condition per present input and none for an absent one, in input order, numbered k+1, k+2, … consecutively |
| Sql.Numbered | backend/routes/routes.js:21-34 | Reference definition (no contract): the present inputs, numbered consecutively after k; `Sql.NumberedSpec` states its properties |
| Sql.PlaceholderRefersToParam | backend/routes/routes.js:21-34 | With k parameters bound and the conditions' values pushed after them, the i-th present input gets `$(k+i+1)`, that placeholder names its own value in the parameter list, and its assignment text names its own column |
| Sql.NumberedAppend | backend/routes/routes.js:21-34 | Numbering continues across a concatenation where the first part stopped |
| Sql.WhereTextAppend | backend/routes/routes.js:21-34 | The appended filter text distributes over concatenation |
| Sql.AddFilter | backend/routes/routes.js:21-24 | One `if (x) { query += …; params.push(x) }` block keeps `query = base + WhereText(Numbered(done))` and `params = ValuesOf(Numbered(done))`. A present input appends ` AND col = $(params.length+1)` and its value; an absent one changes nothing |
| Sql.AddAssignment | backend/routes/routes.js:179-182 | One optional `updates.push`/`params.push` step keeps the updates and the parameters equal to the numbering after the fixed `$1`/`$2` |
| Sql.NumberedStepWhere | backend/routes/routes.js:21-24 | One more input adds exactly its filter text, numbered one past the previous conditions, or nothing |
| Sql.NumberedStepValues | backend/routes/routes.js:23 | One more input adds exactly its value to the parameters, or nothing |
| Sql.NumberedStepAssignments | backend/routes/routes.js:180 | One more input adds exactly its assignment to the updates, or nothing |
| Sql.ListVersusRow | backend/routes/routes.js:38-68 | On an empty result a list answers 200 with `[]` while a lookup answers 404; otherwise the list has one element per row and the lookup's body is its first; both are 500 when the query throws |
| Sql.RowResponse | backend/routes/routes.js:60-68 | 404 iff no row; the first row with 200 otherwise; 500 with the error body when the query throws |
| Sql.CreatedVersusRow | backend/routes/routes.js:97-100 | A create returns the same first row as a lookup, with 201 instead of 200; on an empty result it still answers 201 with no body where a lookup answers 404; both are 500 when the query throws |
| Sql.DefaultOnlyForUndefined | backend/routes/routes.js:74-95 | A defaulted field binds its default iff the body lacks the value, holds `undefined` or already holds the default; it binds what a plain field binds iff the value is there or the default is itself undefined; a `null` is kept |
| RoutesApi.ListQuery | backend/routes/routes.js:9-36 | The query is the base, then the conditions of the present filters (status, vehicle_id, driver_id) numbered from `$1`, then ORDER BY; the parameters are the conditions' values |
| RoutesApi.ListQueryUnfiltered | backend/routes/routes.js:19-36 | With no filter there is no condition and no parameter |
| RoutesApi.ListQueryVehicleOnly | backend/routes/routes.js:26-29 | A vehicle filter alone is `r.vehicle_id = $1` |
| RoutesApi.GetResponse | backend/routes/routes.js:60-62 | 404 iff the lookup returns no row |
| RoutesApi.CreateStatusDefault | backend/routes/routes.js:74-95 | Nine parameters; a missing status is bound as 'planned', a present one as given |
| RoutesApi.OptimizeParams | backend/routes/routes.js:145-153 | Seven parameters: the id, the AI distance and time, the stringified waypoints, then each AI score, or the route's own score when the AI value is falsy |
| RoutesApi.FuelSavings | backend/routes/routes.js:161 | `fuel_cost` is the AI's `fuel_saved` whenever that is truthy, and 0 whenever it is falsy |
| RoutesApi.OptimizeStatus | backend/routes/routes.js:110-167 | 404 iff the route does not exist; 200 iff it exists, the AI call succeeds and the update does not throw; otherwise 500 |
| RoutesApi.StatusUpdate | backend/routes/routes.js:176-189 | `$1` is the id and `$2` the status; a truthy `actual_time` adds the next numbered assignment and parameter |
| RoutesApi.StatusUpdateActualTime | backend/routes/routes.js:179-182 | A truthy actual time is `actual_time = $3` |
| RoutesApi.StatusResponse | backend/routes/routes.js:191-193 | 404 iff the update returns no row |
| DeliveriesApi.ListQuery | backend/routes/deliveries.js:9-34 | The base, then the conditions of the present filters (status, priority, customer_id) numbered from `$1`, then ORDER BY; the parameters are their values |
| DeliveriesApi.ListQueryStatusAndCustomer | backend/routes/deliveries.js:19-32 | With status and customer but no priority, the customer filter is `$2` bound to the second parameter |
| DeliveriesApi.GetResponse | backend/routes/deliveries.js:56-58 | 404 iff the lookup returns no row |
| DeliveriesApi.CreatePriorityDefault | backend/routes/deliveries.js:70-99 | Thirteen parameters; a missing priority is bound as 'medium', a present one as given |
| DeliveriesApi.StatusUpdate | backend/routes/deliveries.js:112-132 | `$1` is the id and `$2` the status, then the present timestamps numbered on |
| DeliveriesApi.StatusUpdateDeliveryPlaceholder | backend/routes/deliveries.js:117-125 | A truthy delivery time is `$4` after a pickup time and `$3` without one |
| DeliveriesApi.StatusOutcome | backend/routes/deliveries.js:134-145 | 404 iff no row; the `deliveryStatusUpdate` event, keyed `deliveryId`, is emitted iff a row was found, and then the status is 200 |
| MaintenanceApi.ListQuery | backend/routes/maintenance.js:9-33 | The base, then the conditions of the present filters (status, priority, vehicle_id) numbered from `$1`, then ORDER BY; the parameters are their values |
| MaintenanceApi.ListQueryAllFilters | backend/routes/maintenance.js:18-31 | With all three filters the placeholders are `$1`, `$2`, `$3` in filter order |
| MaintenanceApi.ListQueryUnfiltered | backend/routes/maintenance.js:10-33 | With no filter there is no condition and no parameter |
| DriversApi.ListQuery | backend/routes/drivers.js:9-25 | A truthy status gives ` AND d.status = $1` with `[status]`; otherwise the base and ORDER BY with no parameter |
| DriversApi.GetResponse | backend/routes/drivers.js:48-50 | 404 iff the lookup returns no row |
| DriversApi.CreateStatusDefault | backend/routes/drivers.js:62-77 | Six parameters; a missing status is bound as 'active' |
| DriversApi.LocationOutcome | backend/routes/drivers.js:99-110 | 404 iff no row; the event is emitted iff a row was found, the response is then 200 with that row, and the event is exactly `driverLocationUpdate` with `driverId`, a `location` of lat and lng, and the timestamp, with no `id` key |
| DriversApi.PerformanceResponse | backend/routes/drivers.js:137-139 | 404 iff the update returns no row |
| FleetApi.Bindings | backend/routes/fleet.js:83-84 | The i-th body key is bound to `$(i+2)` with the i-th body value |
| FleetApi.SetClause | backend/routes/fleet.js:83-85 | An empty body gives an empty SET clause |
| FleetApi.SetClauseStep | backend/routes/fleet.js:83-85 | The first key gives `key = $2`; each further key appends `, key = $n` with n its position plus 2, so the clause lists every key in order with its own placeholder |
| FleetApi.UpdateValues | backend/routes/fleet.js:87 | `$1`'s value is the id, followed by the body values in key order |
| FleetApi.UpdateBindingsConsistent | backend/routes/fleet.js:83-87 | There are keys+1 values; `$1` is the id, and every `$(i+2)` refers to the value of the i-th key |
| FleetApi.EmptyBodySql | backend/routes/fleet.js:83-91 | An empty body yields `SET , updated_at = …`, which is not valid SQL |
| FleetApi.UpdateSql | backend/routes/fleet.js:89-94 | Definition (no contract): the `UPDATE vehicles SET … WHERE id = $1 RETURNING *` text around the SET clause; see `FleetApi.EmptyBodySql` |
| FleetApi.GetResponse | backend/routes/fleet.js:37-39 | 404 iff the lookup returns no row |
| FleetApi.UpdateResponse | backend/routes/fleet.js:96-98 | 404 iff the update returns no row |
| FleetApi.CreateStatusDefault | backend/routes/fleet.js:51-68 | Eight parameters; a missing status is bound as 'active' |
| FleetApi.LocationOutcome | backend/routes/fleet.js:121-136 | 404 iff no row; the event is emitted iff a row was found, the response is then 200 with that row, and the event is exactly `vehicleLocationUpdate` with `vehicleId`, a `location` of lat, lng and address, and the timestamp; it has no `id` key, so the slice reducer that looks up `id` does not match it |

## Left out

- Text.Lower: `toLowerCase` is modelled on ASCII letters only; other Unicode case mappings are not modelled.
- Text.Trim: `trim` treats the ASCII whitespace characters as space; other Unicode spaces are not modelled.
- Numbers are `real`: NaN, infinities and floating-point rounding are not modelled. The 0.85 and 0.9 scaling in the route screen is exact here, not bit-exact.
- The SQL base queries are whitespace-normalised to one line; the database ignores the difference.
- `setTimeout` delays, `Date.now()` ids and `new Date().toISOString()` timestamps are parameters (the message id and timestamp in `HandleSend`, the event timestamps).
- Chatbot.ChatPanel.HandleSend: the bot message the timer posts a second later is returned as the pending reply rather than appended; the timer itself is not modelled.
- RouteOptimization.RouteScreen.HandleOptimizeRoute: the simulated delay and the catch branch are not modelled. The handler reads `optimizedRoutes` as captured when the component last rendered; the model reads the current value.
- The database (`db.query`), the AI service (`fetch`) and socket.io are inputs: a `DbResult`, an `AiResult` and the emitted `Event`.
- The `savings.distance` and `savings.time` of the optimise response are subtractions on values whose JavaScript types depend on the database driver; only `fuel_cost` is modelled.
- `JSON.stringify` is represented by the constructor `Json(v)` rather than by the produced text.
- FleetSlice.MergeFilters: a patch key is either absent or carries a list. JavaScript's spread would also copy a key that is present with the value `undefined`; the screen never sends one, so that case is not modelled.
- FleetApi.Bindings: the request body is a list of entries in key order. JavaScript puts integer-like keys first in `Object.keys`; that reordering is not modelled.
- The `GET /vehicles` list and the analytics endpoints are fixed SQL with no parameter logic and are not modelled.
- Averages, the on-time ratio on the drivers screen and `toFixed`/`toLocaleString` formatting are floating-point display code and are not modelled.
- The dashboard's recent activities and alerts are untyped (`any[]`) and are kept as opaque JSON values.
- The Redux auth state is not part of this model; `Auth.User` holds only the role and the optional permission list the hook reads.
- React state updates are treated as applied immediately, in order; batching and re-rendering are not modelled.
- The speech recognition buttons of the chat panel, the map, charts and all JSX markup are presentation only and are not modelled.
- The AI gateway (`ai-services/main.py`) forwards to model classes that are not part of this model.
