# Ecommerce admin: a verified model of the catalogue back end and admin front end

This project models, in Dafny, the decision logic of a small e-commerce
administration system. It has two halves.

The back end has three parts:

- **Admin registration and login** (`AuthController`). An admin table is keyed by email. Password hashing, hash comparison and token signing are parameters.
- **The catalogue handlers** (`ProductController`, `CategoryController`, over the tables of `Db`). They cover:
  - the paginated, category-filterable product listing;
  - creating, updating and deleting products, each with its category links;
  - creating, renaming and deleting categories.
- **The table invariants.** Ids are unique and below the next id. Every link names an existing product and an existing category. Every handler keeps these invariants.

The front end has four parts:

- **The client session** (`AuthContext`). It holds `admin` and `token` state, mirrored into browser storage under the key `"auth"`.
- **The route gate** (`PrivateRoute`).
- **The add/edit product dialog** (`ProductForm`). It covers form state, validation, category chips, and the payload it sends.
- **The products page** (`ProductsPage`). It covers paging and filter state, the request parameters, the Prev and Next buttons, the delete confirmation, and the categories column.

Each handler or component that changes state step by step is a method on a
class whose fields are that state:

- the admin table, `AuthController.AdminStore`;
- the catalogue tables, `Db.Store`;
- the dialog, `ProductForm.ProductFormState`;
- the session, `AuthContext.AuthProvider`;
- the browser storage, `AuthContext.LocalStorage`;
- the page, `ProductsPage.ProductsPageState`.

Pure decisions are functions, with lemmas relating them. These cover the
listing, registration and login, the gate, validation and the button rules.

Modelling conventions:

- JavaScript's `null`/`undefined` is `Option`, and truthiness of a string is `Truthy`.
- A field left out of an update request keeps the row's value.
- A handler that throws an exception nothing catches gives `NoReply`: the handler itself sends nothing, and its write leaves the tables unchanged.
- JSON encoding and decoding are the identity.

## Model

| member | source | states |
|---|---|---|
| AuthController.JwtSecret | backend/src/controllers/authController.ts:6 | The secret is never empty. It is the environment variable when that is set and non-empty, and "dev_secret" otherwise. |
| AuthController.HasAllFields | backend/src/controllers/authController.ts:13 | Registration needs a non-empty username, email and password. |
| AuthController.Register | backend/src/controllers/authController.ts:9-32 | Registration answers 201 exactly when username, email and password are all non-empty and the email is not registered yet. Otherwise the table is unchanged. On success exactly one admin is added, `Admin(nextId, username, email, hash(password))`, and every existing admin is unchanged. The response shows only id, username and email. The table keeps its invariant: keyed by email, with unique positive ids. |
| AuthController.RegisterRejections | backend/src/controllers/authController.ts:13-20 | A missing field gives 400 "All fields are required". A registered email gives 400 "Email already in use". |
| AuthController.RegisterResponseHidesHash | backend/src/controllers/authController.ts:22-32 | The registration response is the same whatever the hash function: the hash is stored and never returned. |
| AuthController.RegisterTwiceConflicts | backend/src/controllers/authController.ts:17-20 | After a successful registration, any second complete registration with the same email gives "Email already in use". |
| AuthController.Login | backend/src/controllers/authController.ts:39-63 | Login answers 200 exactly when email and password are non-empty, the email is registered and the password matches its hash. On success the token is signed over `{id, username, email}` with a 3600-second lifetime, and the returned admin equals those claims. A failure body is a plain message. The table is never changed. |
| AuthController.LoginRejections | backend/src/controllers/authController.ts:43-55 | A missing field gives 400 "Email and password required". An unknown email gives 401 "Invalid credentials". A wrong password gives the same 401. |
| AuthController.LoginFailuresIndistinguishable | backend/src/controllers/authController.ts:47-55 | An unknown email and a wrong password give identical responses. |
| AuthController.RegisterThenLogin | backend/src/controllers/authController.ts:9-63 | Assume a password matches its own hash. Then registering and logging in with the same email and password succeeds, with claims equal to the new admin's id, username and email. |
| AuthController.AliceScenario | backend/src/controllers/authController.ts:9-63 | On an empty table the first admin gets id 1. The right password logs in as that admin, and a wrong one gives "Invalid credentials". |
| AuthController.AdminStore.RegisterAdmin | backend/src/controllers/authController.ts:9-32 | Registration on the stored table: the response and the new table are those of `Register`, and the invariant is kept. |
| ProductController.OrDefault | backend/src/controllers/productController.ts:6-7 | `parseInt(x) \|\| d`: a missing, non-numeric or zero value becomes the default, and any other number, negative ones included, passes through. |
| ProductController.Include | backend/src/controllers/productController.ts:25 | A listed product carries exactly the categories it is linked to. |
| ProductController.Selected | backend/src/controllers/productController.ts:14-20 | A truthy category id (neither missing nor 0) selects the products linked to it. Otherwise every product is selected. |
| ProductController.Matching | backend/src/controllers/productController.ts:13-20 | The selected products are exactly the products satisfying the `where` condition, in table order. |
| ProductController.PageCount | backend/src/controllers/productController.ts:38 | `Math.ceil(total / limit)`: the pages cover `total`, and the last page is not empty. |
| ProductController.Window | backend/src/controllers/productController.ts:26-27 | `skip`/`take`: at most `take` rows, each the row at its offset past `skip`, and exactly as many as remain. |
| ProductController.GetProducts | backend/src/controllers/productController.ts:4-43 | The listing answers exactly when the skip is non-negative and the limit positive, and 500 "Failed to fetch products" otherwise. The answer carries the page and the limit. The total is the number of matches and `totalPages` its ceiling over the limit. The data holds at most `limit` rows: the matches from position `(page-1)*limit` on, each with its categories. |
| ProductController.NoFilterSelectsAll | backend/src/controllers/productController.ts:8-20 | With no category filter (absent, not a number, or 0) every product is listed, in table order. |
| ProductController.FilterSelectsLinked | backend/src/controllers/productController.ts:14-20 | A category filter selects exactly the products linked to that category. |
| ProductController.TotalIgnoresPage | backend/src/controllers/productController.ts:31-38 | `total` and `totalPages` do not depend on the page asked for. |
| ProductController.PageOfIndex | backend/src/controllers/productController.ts:10 | The match at position `i` sits on page `i / limit + 1`, which lies between 1 and the page count, with skip `i - i % limit`. |
| ProductController.EveryMatchOnItsPage | backend/src/controllers/productController.ts:10-38 | Every matching product is returned on page `i / limit + 1`, at position `i % limit`, and that page is within `totalPages`. |
| ProductController.LinksFor | backend/src/controllers/productController.ts:60-64 | The links created are exactly one per requested category id, for the given product. |
| ProductController.Patched | backend/src/controllers/productController.ts:77-84 | The updated row keeps its id and takes each field from the request when present, keeping the old value otherwise. |
| Db.ReplaceRow | backend/src/controllers/productController.ts:77-84 | An update by key, used for products and for categories (categoryController.ts:21-24): the table keeps its length, the row with the updated key is replaced, and every other row stays in place. |
| ProductController.HasRequiredFields | backend/src/controllers/productController.ts:49 | A request passes when the name is non-empty, the price is present and non-zero, and the stock quantity is present. |
| ProductController.CreateProduct | backend/src/controllers/productController.ts:45-70 | The request is refused with 400 "Missing required fields" when the name is empty, the price is missing or zero, or the stock quantity is missing. An unknown category id aborts the whole write, and the handler sends nothing. Otherwise exactly one product is appended, with the next id and one link per category id, and the reply is the product with its categories. The table invariant is kept. |
| ProductController.CreatedProductListedLast | backend/src/controllers/productController.ts:45-70 | A created product is listed, last, under no filter and under each of its categories. |
| ProductController.UpdateProduct | backend/src/controllers/productController.ts:72-96 | A missing product or an unknown category id aborts the update, and the handler sends nothing, and the tables are unchanged. Otherwise the row is patched in place, and its links become exactly one per requested id. The other products' links, the categories and the id counters are unchanged. The reply is the patched row with its categories. |
| ProductController.Relink | backend/src/controllers/productController.ts:85-90 | `deleteMany` then `create`: the product's links are exactly the requested ids, and all other links stay. |
| ProductController.RelinkKeepsIntegrity | backend/src/controllers/productController.ts:85-90 | Relinking an existing product to existing categories leaves every link pointing at existing rows. |
| Db.ReplaceRowKeepsTable | backend/src/controllers/productController.ts:77-84 | Replacing a row by one with the same key keeps the rows distinct, the keys unique and the key set unchanged. The rows afterwards are the new row plus the old rows with other keys. |
| ProductController.UpdateProductKeepsConsistent | backend/src/controllers/productController.ts:77-93 | Patching a product in place and relinking it to existing categories keeps the tables consistent. |
| ProductController.DeleteProduct | backend/src/controllers/productController.ts:98-117 | The product's links are removed first, then the product. A missing product gives 500 "Failed to delete product" with nothing changed. Otherwise the answer is "Product deleted". Afterwards no row and no link has that id, everything else is unchanged, and the invariant is kept. |
| ProductController.AddProductKeepsConsistent | backend/src/controllers/productController.ts:53-67 | Appending a product with the next id, linked to existing categories, keeps the tables consistent. |
| ProductController.DeleteProductKeepsConsistent | backend/src/controllers/productController.ts:103-110 | Removing a product's links and then the product keeps the tables consistent. |
| CategoryController.GetCategories | backend/src/controllers/categoryController.ts:4-7 | The answer is every category row, with nothing added or missing. |
| CategoryController.CreateCategory | backend/src/controllers/categoryController.ts:9-15 | A missing or empty name gives 400 "Name is required" with nothing changed. Otherwise exactly one category is appended, with the next id, and returned. |
| CategoryController.UpdateCategory | backend/src/controllers/categoryController.ts:17-27 | For a missing category the handler sends nothing and nothing changes. Otherwise the row is replaced in place and returned, with the given name (empty included) or unchanged when no name is sent. Every other table is unchanged. |
| CategoryController.DeleteCategory | backend/src/controllers/categoryController.ts:29-48 | The category's links are removed first, then the category. A missing category gives 500 "Failed to delete category" with nothing changed. Otherwise the answer is "Category deleted". Afterwards no row and no link has that id, and the invariant is kept. |
| CategoryController.AddCategoryKeepsConsistent | backend/src/controllers/categoryController.ts:13 | Appending a category with the next id keeps the tables consistent. |
| CategoryController.RenameKeepsConsistent | backend/src/controllers/categoryController.ts:21-24 | Renaming a category keeps the tables consistent. |
| CategoryController.DeleteCategoryKeepsConsistent | backend/src/controllers/categoryController.ts:34-41 | Removing a category's links and then the category keeps the tables consistent. |
| Seqs.Filter | frontend/frontend/src/components/ProductForm.tsx:127 | `filter`: no longer than its input, holding exactly the input's elements that satisfy the test. |
| Seqs.FilterKeepsAll | backend/src/controllers/productController.ts:13-20 | Filtering returns its input unchanged exactly when every element satisfies the test. |
| Seqs.FilterAppend | backend/src/controllers/productController.ts:23-28 | Filtering a concatenation is the concatenation of the filtered parts. |
| Seqs.FilterNoDup | frontend/frontend/src/components/ProductForm.tsx:124-129 | Filtering a duplicate-free list gives a duplicate-free list. |
| Seqs.Join | frontend/frontend/src/pages/ProductsPage.tsx:155 | `join`: empty for no names, and the name itself for one. |
| Seqs.JoinAppend | frontend/frontend/src/pages/ProductsPage.tsx:155 | Joining two non-empty lists puts exactly one separator between their joins. |
| Seqs.JoinLength | frontend/frontend/src/pages/ProductsPage.tsx:155 | The joined string is as long as all names plus one separator between neighbours. |
| ProductForm.OrEmpty | frontend/frontend/src/components/ProductForm.tsx:44 | `value \|\| ""` on an optional field: the value when present, else empty. |
| ProductForm.CategoryIdsOf | frontend/frontend/src/components/ProductForm.tsx:48 | The chosen ids of a product being edited are its categories' ids, in order. |
| ProductForm.InitialForm | frontend/frontend/src/components/ProductForm.tsx:40-62 | In edit mode the form is filled from the product: missing description and image as empty, numbers as text, and its category ids. In new mode every input is empty. |
| ProductForm.RequiredMessage | frontend/frontend/src/components/ProductForm.tsx:94-97 | Each required field has its own non-empty message; the submit entry has none of its own. |
| ProductForm.Missing | frontend/frontend/src/components/ProductForm.tsx:94-97 | Name, price and stock quantity are missing when their text is empty. The categories are missing when none is chosen. |
| ProductForm.ValidationErrors | frontend/frontend/src/components/ProductForm.tsx:92-97 | A field has an error exactly when it is empty (name, price, stock quantity, or no category), with that field's non-empty message. |
| ProductForm.ValidIff | frontend/frontend/src/components/ProductForm.tsx:94-102 | A form passes validation exactly when name, price and stock quantity are non-empty and a category is chosen. |
| ProductForm.EmptyFormReportsAll | frontend/frontend/src/components/ProductForm.tsx:94-97 | An empty new-mode form reports all four required fields. |
| ProductForm.EditFormValidIff | frontend/frontend/src/components/ProductForm.tsx:41-49 | An unchanged edit form validates exactly when the product has a name and a category, given that a number's text is never empty. |
| ProductForm.ToPayload | frontend/frontend/src/components/ProductForm.tsx:104-108 | The payload keeps name, description, image URL and chosen categories. Price and stock quantity are `Number` of their text. |
| ProductForm.ErrorOf | frontend/frontend/src/components/ProductForm.tsx:150-199 | Typing in name, price or stock quantity clears that field's error. Description and image URL have none, and typing never clears the category or submit error. |
| ProductForm.SetInput | frontend/frontend/src/components/ProductForm.tsx:150-199 | Typing into an input never changes the chosen categories. |
| ProductForm.SelectOptions | frontend/frontend/src/components/ProductForm.tsx:211-212 | The select offers exactly the loaded categories not chosen yet, and nothing while loading. |
| ProductForm.ProductFormState.constructor | frontend/frontend/src/components/ProductForm.tsx:29-62 | The dialog starts closed, with the initial form and no errors. |
| ProductForm.ProductFormState.Reset | frontend/frontend/src/components/ProductForm.tsx:40-62 | The effect sets the initial form and clears every error. |
| ProductForm.ProductFormState.SetOpen | frontend/frontend/src/components/ProductForm.tsx:132 | Opening or closing the dialog sets `open` and reruns the effect. Setting the same value changes nothing. |
| ProductForm.ProductFormState.Edit | frontend/frontend/src/components/ProductForm.tsx:150-199 | An input's change sets that input and blanks that input's error if it is shown. Every other error and the set of error keys are unchanged. |
| ProductForm.ProductFormState.AddCategory | frontend/frontend/src/components/ProductForm.tsx:111-122 | Choosing a category appends it when it is new, so the list stays duplicate-free. It blanks a shown category error. |
| ProductForm.ProductFormState.RemoveCategory | frontend/frontend/src/components/ProductForm.tsx:124-129 | Removing a category drops exactly that id and keeps the others in order, duplicate-free. |
| ProductForm.ProductFormState.HandleSubmit | frontend/frontend/src/components/ProductForm.tsx:90-109 | Nothing is sent exactly when validation fails, and then the errors are the validation errors. Otherwise the payload is the form with price and stock quantity converted, and the errors are unchanged. |
| ProductForm.ProductFormState.OnSubmitSuccess | frontend/frontend/src/components/ProductForm.tsx:77-80 | Success closes the dialog, which resets the form and errors when it was open. |
| ProductForm.ProductFormState.OnSubmitError | frontend/frontend/src/components/ProductForm.tsx:81-87 | The only error is the submit error: the server's message when non-empty, else "An error occurred". |
| ProductForm.ErrorsForAdd | frontend/frontend/src/components/ProductForm.tsx:94-97 | Checking one more field adds its message exactly when that field is empty. |
| ProductForm.CheckField | frontend/frontend/src/components/ProductForm.tsx:94-97 | One check records the field's message exactly when it is empty. |
| ProductForm.CollectErrors | frontend/frontend/src/components/ProductForm.tsx:92-97 | The errors built check by check equal the validation errors. |
| AuthContext.SessionOf | frontend/frontend/src/context/AuthContext.tsx:38-40 | A stored record restores its admin and its token. |
| AuthContext.AuthProvider.constructor | frontend/frontend/src/context/AuthContext.tsx:19-20 | The provider starts with no admin and no token. |
| AuthContext.AuthProvider.Login | frontend/frontend/src/context/AuthContext.tsx:22-26 | Login sets admin and token and writes `{admin, token}` under "auth". Every other key is kept, and state and storage agree. |
| AuthContext.AuthProvider.Logout | frontend/frontend/src/context/AuthContext.tsx:28-32 | Logout clears admin and token and removes "auth". Every other key is kept, and state and storage agree. |
| AuthContext.AuthProvider.LoadFromStorage | frontend/frontend/src/context/AuthContext.tsx:35-42 | The mount effect restores the stored session when "auth" is present and leaves the state alone otherwise. From the initial state it makes state and storage agree. |
| AuthContext.Reload | frontend/frontend/src/context/AuthContext.tsx:19-42 | A reload yields exactly the session the storage stands for: the stored one, or signed out. |
| AuthContext.LoginThenReload | frontend/frontend/src/context/AuthContext.tsx:22-42 | Login then reload yields the admin and token given to login. |
| AuthContext.LogoutThenReload | frontend/frontend/src/context/AuthContext.tsx:28-42 | Logout then reload yields no admin and no token. |
| AuthContext.UseAuth | frontend/frontend/src/context/AuthContext.tsx:51-55 | Outside a provider the hook fails with "useAuth must be used within AuthProvider". Inside, it returns the provider's value. |
| PrivateRoute.SignedIn | frontend/frontend/src/components/PrivateRoute.tsx:11 | A session is signed in when it has an admin and a non-empty token. |
| PrivateRoute.ProtectedRoute | frontend/frontend/src/components/PrivateRoute.tsx:8-17 | The gate renders its child unchanged exactly when there is an admin and a non-empty token. Otherwise it navigates to "/login", replacing the history entry. |
| PrivateRoute.DecidedBySession | frontend/frontend/src/components/PrivateRoute.tsx:9-16 | The decision depends only on whether there is an admin and on the token, not on the child. |
| PrivateRoute.SignedOutRedirects | frontend/frontend/src/components/PrivateRoute.tsx:11-14 | A signed-out session is redirected to the login page. |
| PrivateRoute.StoredSessionRenders | frontend/frontend/src/components/PrivateRoute.tsx:11-16 | A session restored from storage is let through exactly when its token is non-empty. |
| PrivateRoute.RouteAfterLogin | frontend/frontend/src/components/PrivateRoute.tsx:11-16 | After login with a non-empty token the gate renders its child. With an empty token it redirects. |
| PrivateRoute.RouteAfterLogout | frontend/frontend/src/components/PrivateRoute.tsx:11-14 | After logout the gate redirects to the login page. |
| PrivateRoute.RouteOnReload | frontend/frontend/src/components/PrivateRoute.tsx:8-17 | On a reload of a protected page the first render, before the provider's mount effect, always redirects. The redirect moves the location to /login before the session is restored, so the page lands on /login and the protected child is not shown, even with a stored signed-in session (see "## Findings"). |
| PrivateRoute.GuardedRoute | frontend/frontend/src/components/PrivateRoute.tsx:8-17 | Corrected gate: it decides nothing until the session has been restored. Afterwards it renders the child exactly when the session is signed in. |
| PrivateRoute.GuardedRouteOnReload | frontend/frontend/src/context/AuthContext.tsx:35-43 | With the corrected gate, a reload of a protected page stays on that page and shows the child exactly when a session with a non-empty token is stored. Otherwise it lands on /login. |
| ProductsPage.RequestParams | frontend/frontend/src/pages/ProductsPage.tsx:39-40 | The request always carries the page and limit 5. It carries `categoryId` exactly when the filter is non-empty, and then that filter. |
| ProductsPage.FilterChoice | frontend/frontend/src/pages/ProductsPage.tsx:74 | "all" clears the filter, and any other value becomes the filter. |
| ProductsPage.SelectValue | frontend/frontend/src/pages/ProductsPage.tsx:77 | The select shows the filter when it is non-empty, and "all" otherwise. |
| ProductsPage.SelectShowsChoice | frontend/frontend/src/pages/ProductsPage.tsx:73-77 | After choosing any non-empty option, the select shows that option. |
| ProductsPage.AllSendsNoCategory | frontend/frontend/src/pages/ProductsPage.tsx:39-40 | After choosing "all", the request carries no category. |
| ProductsPage.PrevDisabled | frontend/frontend/src/pages/ProductsPage.tsx:227 | Prev is disabled exactly on page 1. |
| ProductsPage.NextDisabled | frontend/frontend/src/pages/ProductsPage.tsx:237 | Next is disabled exactly when the page equals the last response's `totalPages`, so never while no response has arrived. |
| ProductsPage.PrevPage | frontend/frontend/src/pages/ProductsPage.tsx:227-228 | Prev does nothing on page 1 and otherwise goes back one page. |
| ProductsPage.NextPage | frontend/frontend/src/pages/ProductsPage.tsx:237-238 | Next does nothing when the page equals `totalPages` and otherwise goes forward one page. |
| ProductsPage.PrevStaysPositive | frontend/frontend/src/pages/ProductsPage.tsx:227-228 | Prev never leads below page 1. |
| ProductsPage.NextStaysWithinPages | frontend/frontend/src/pages/ProductsPage.tsx:237-238 | From a page within `1..totalPages`, Next stays within `1..totalPages`. |
| ProductsPage.NextEnabledWithoutPages | frontend/frontend/src/pages/ProductsPage.tsx:237-238 | With no matching product, `totalPages` is 0, so Next is enabled on page 1 and leads to page 2, which comes back empty. |
| ProductsPage.ServedQuery | frontend/frontend/src/pages/ProductsPage.tsx:39-42 | The listing handler reads the request's page and limit as given. It reads the category id through `parseInt` when one is sent, and no category otherwise (productController.ts:6-8). |
| ProductsPage.RequestIsServed | frontend/frontend/src/pages/ProductsPage.tsx:39-42 | For every page from 1 up, the listing handler answers the request with that page and a limit of 5. |
| ProductsPage.ProductsPageState.constructor | frontend/frontend/src/pages/ProductsPage.tsx:25-26 | The page starts on page 1 with no filter. |
| ProductsPage.ProductsPageState.SelectCategory | frontend/frontend/src/pages/ProductsPage.tsx:73-76 | A filter change records the choice and resets to page 1. |
| ProductsPage.ProductsPageState.ClickPrev | frontend/frontend/src/pages/ProductsPage.tsx:227-228 | Prev moves as `PrevPage` says and keeps the filter. The page stays at least 1. |
| ProductsPage.ProductsPageState.ClickNext | frontend/frontend/src/pages/ProductsPage.tsx:237-238 | Next moves as `NextPage` says and keeps the filter. The page stays at least 1. |
| ProductsPage.HandleDelete | frontend/frontend/src/pages/ProductsPage.tsx:55-58 | A delete of that id is issued exactly when the user confirms. |
| ProductsPage.CategoryNames | frontend/frontend/src/pages/ProductsPage.tsx:155 | The names of the product's categories, in order. |
| ProductsPage.CategoryColumn | frontend/frontend/src/pages/ProductsPage.tsx:155 | The column is empty for no categories, and the category's name for one. |
| ProductsPage.CategoryColumnAppend | frontend/frontend/src/pages/ProductsPage.tsx:155 | One more category adds ", " and its name to a non-empty column. |

## Left out

- bcrypt and jsonwebtoken are parameters of the model (`Crypto`). The only property assumed is that a password matches its own hash (`HashAgrees`). Not modelled: the cost factor 10, constant-time comparison, token validity and the 1-hour clock. `TOKEN_LIFETIME` records the lifetime as 3600 seconds.
- Nothing anywhere verifies a token, so no server-side guard is modelled.
- Concurrency: the check-then-insert of registration is not atomic in the source. The model is sequential and makes no claim about races. async/await is left out too.
- The 500 answers for errors the database raises in registration and login (`Error registering admin`, `Error logging in`) are not modelled. The model's table operations cannot fail.
- ProductController.GetProducts: a negative page or limit answers 500, with no rows. The database client's actual treatment of a negative `skip` or `take` is not modelled.
- ProductController.GetProducts: rows come in the model's table order. The database's result order is not modelled.
- ProductController.CreateProduct: a repeated category id in a request collapses into one link. The database would refuse the second link, and that error is not modelled.
- ProductController.UpdateProduct: a field sent as JSON `null` is not distinguished from one left out. The database's null handling and type errors are not modelled.
- ProductController.UpdateProduct: a repeated category id in a request collapses into one link and the update succeeds. The database would refuse the second link and the handler would send nothing; that is not modelled.
- CategoryController.UpdateCategory: a `name` sent as JSON `null` is not distinguished from one left out. The model keeps the old name, where the database would refuse the update and the handler would send nothing.
- ProductController.GetProducts: page and limit are unbounded integers. A `parseInt` result beyond 2^53 or beyond the database's integer range would make the query fail and the catch answer 500. The model instead answers with the page, and no rows when the skip lies past the matches.
- Price is a `real`. Floating-point rounding and the `Number()`/`String()` conversions of the dialog are parameters (`NumberText`).
- `Number(id)` of a non-numeric path parameter (NaN) is not modelled. Handlers take an integer id.
- `parseInt` is modelled by its result: `None` when absent or not a number.
- The parameter `parse` of `ProductsPage.ServedQuery` is the server's `parseInt` of the category filter string. The dialog's category select turns an id into a string and back with `Number(String(id))`, and the model takes that as the identity: `ProductFormState.AddCategory` takes the number directly.
- `JSON.stringify`/`JSON.parse` and the storage's string values are the identity. Storage holds the stored record type under every key.
- react-query (caching, refetching, `invalidateQueries`, loading and disabled flags), the dialogs and the rendering of rows are not modelled.
- ProductForm.ProductFormState: the `product` prop is a constant of the model. In the source the reset effect also reruns when that prop changes, and every products refetch passes a new object. So a refetch while the edit dialog is open wipes the form and its errors; the model does not capture that.
- What the server runtime does after a handler throws is not modelled. Depending on the Express and Node versions, the process may exit on the unhandled rejection, or a default 500 may be sent. The model only records that the handler sends nothing.
- The page's loading screen is not modelled.
- Request bodies of CreateProduct, UpdateProduct, CreateCategory, UpdateCategory, Register and Login are assumed to carry each field with its declared JSON type. The create check lets through a truthy non-number price such as `"12"` and a fractional `stockQuantity` such as 2.5 (the dialog sends `Number(...)` of its text). What the database client does with such values is not modelled, and `ProductRequest.stockQuantity` has no value for a fraction.
- `categoryIds.map` on a request without `categoryIds` would crash the create and update handlers. The model's request always carries the list.
- backend/src/index.ts and backend/src/routes/authRoutes.ts are not part of this model: they only wire the server and its routes.
- App.tsx, main.tsx, RegisterPage.tsx and CategoriesPage.tsx are not part of this model: they only wire routes, start the app, or render pages and send requests.

## Findings

| source | as written | input that shows it | evidently intended | confidence | as-written member | corrected member |
|---|---|---|---|---|---|---|
| frontend/frontend/src/components/PrivateRoute.tsx:11-14 | On a reload the gate decides on the first render, before AuthProvider's mount effect (AuthContext.tsx:35-43) has restored the session. Its redirect moves the location to /login first, so a stored session never reaches the protected page. | A reload of /products with `auth` stored as an admin with a non-empty token: the page ends on /login. | A reload restores the session and keeps the protected page. | not executed; depends on the router's redirect navigating from an effect, which runs before the provider's effect | PrivateRoute.RouteOnReload | PrivateRoute.GuardedRouteOnReload |
