# tag.it user checks and user-controller decisions, in Dafny

This project models two pieces of decision logic of the tag.it forum
(students and instructors meet in courses, write posts and comments, and
follow and like them):

- the **signup form checks** of the web client: the name, email and password
  validators, and the choice `handleSignUp` makes between creating the
  account and showing exactly one error message;
- the **user controller** of the backend: which requests are refused (422)
  or fail (410), which calls each handler makes on the store and on user
  objects and in what order, how a user's role in a course is resolved, and
  how a user's course references are expanded into course records.

Files:

- `wrappers.dfy` — `Option`.
- `js_builtins.dfy` — `String.prototype.lastIndexOf` (for any pattern, -1
  when absent), `Array.prototype.indexOf`, and the truthiness of an optional
  string parameter.
- `signup.dfy` — module `Signup`: the validators as functions whose
  contracts characterise them by the last occurrence of a character,
  independently of `lastIndexOf`; `SignUp` and a reference definition
  (`FirstFailure`) of "the first failing check, in order".
- `user_controller.dfy` — module `UserController`: each handler as a
  function (or, for `updateUser`, a method) from abstract inputs to a
  `Handled` value (the calls made, in order, and the response), or to a
  bare `Response` for the two read-only handlers, `getUser` and
  `getUserType`. A request
  body is a map from key to value; a course is a record with
  `instructorList` and `studentList`; the course and user stores are partial
  maps. The User and Course model methods are opaque: a call to one is an
  `Effect` value, never interpreted.

In `getUser` the code awaits `Promise.all` over all course lookups, so one
course reference that no longer resolves makes the whole response 410; the
model follows the code rather than a skip-the-dangling-reference policy
(`DanglingCourseFailsWholeView`). Idempotent, symmetric add/remove of
associations would live in the User and Course model classes, which are not
part of this model, so nothing is claimed about it.

## Model

| member | source | states |
|---|---|---|
| JsBuiltins.LastIndexOf | client/src/pages/Signup/index.jsx:81-86 | the result is -1 exactly when the pattern does not occur, and otherwise the start of its last occurrence |
| JsBuiltins.IndexOf | backend/controllers/userController.js:165-169 | the result is -1 exactly when the element is absent, and otherwise the index of its first occurrence |
| Signup.NameValid | client/src/pages/Signup/index.jsx:58-75 | a name is accepted iff its last space is at an index above 0 with at least one character after it |
| Signup.NameExamples | client/src/pages/Signup/index.jsx:58-75 | "", "Ada", " Ada" and "Ada " are rejected; "Ada Lovelace" is accepted |
| Signup.EmailValid | client/src/pages/Signup/index.jsx:78-98 | an email is accepted iff the last '@' is above index 0, the last '.' is after it and above index 2 with at least two characters after it, and "@@" does not occur |
| Signup.EmailRejections | client/src/pages/Signup/index.jsx:81-90 | the empty string, no '@' or a last '@' at index 0, no '.', a last '.' not after the last '@' or at index 2 or below, fewer than two characters after the last '.', and any "@@" are each rejected |
| Signup.EmailExamples | client/src/pages/Signup/index.jsx:81-97 | "ada@x.edu" is accepted and "a@b.c" is rejected |
| Signup.PasswordsMatch | client/src/pages/Signup/index.jsx:101-107 | true iff the password and its confirmation are the same string |
| Signup.PasswordsMatchIsEquivalence | client/src/pages/Signup/index.jsx:101-107 | the password check is reflexive, symmetric and transitive |
| Signup.SignUp | client/src/pages/Signup/index.jsx:17-54 | signup proceeds to account creation iff all three checks pass; otherwise the outcome is one of the three messages |
| Signup.SignUpShowsFirstFailure | client/src/pages/Signup/index.jsx:43-54 | the outcome is the message of the first failing check in the order name, email, password, as the reference definition of "first failure" gives it |
| UserController.AddUser | backend/controllers/userController.js:4-24 | 422 with no call on the store unless name, email and uuid are all in the body; otherwise exactly one push, and 200 iff it succeeds, else 410 |
| UserController.ExpandCourses | backend/controllers/userController.js:37-47 | the expansion succeeds iff every uuid resolves; then it has the list's length and entry i is the record of course i |
| UserController.GetUser | backend/controllers/userController.js:26-57 | 200 iff the viewed user resolves and every course in both of its lists resolves; the user shown is the one the truthy userUUID query names, else the caller; the filled-in lists are order-preserving expansions of the two lists; every other case is 410 |
| UserController.DanglingCourseFailsWholeView | backend/controllers/userController.js:38-55 | one dangling student-course reference beside a valid one gives 410, not a partial list |
| UserController.Planned | backend/controllers/userController.js:66-101 | every call planned for a list of mutations is on the caller, for a listed mutation whose key is in the body, with that key's value |
| UserController.PlannedComplete | backend/controllers/userController.js:66-101 | every listed mutation whose key is in the body gets its call |
| UserController.PlannedOrdered | backend/controllers/userController.js:66-101 | calls come out in the order of the mutation list, so none is made twice |
| UserController.PlannedIgnoresOtherKeys | backend/controllers/userController.js:66-101 | a key no listed mutation uses does not change the calls |
| UserController.UpdatePlanDispatch | backend/controllers/userController.js:66-101 | updateUser makes, for each recognised key present, exactly one matching call with its value, in the fixed order name, email, studentCourse, instructorCourse, post, comment, followedPost, likedPost, rmLikedPost, likedComment, rmLikedComment, icon, and nothing else |
| UserController.UpdatePlanIgnoresUnrecognisedKeys | backend/controllers/userController.js:66-101 | an unrecognised key in the body triggers nothing |
| UserController.UpdatePlanEmpty | backend/controllers/userController.js:66-101 | no call is made iff the body holds no recognised key |
| UserController.Dispatch | backend/controllers/userController.js:66-101 | the straight-line sequence of key tests makes exactly the calls of the update plan |
| UserController.UpdateUser | backend/controllers/userController.js:60-109 | with a caller, the calls of the update plan and 200 when none of them throws before returning; when call k throws, only the k calls before it and 410; without a caller, no call, and 410 iff the body holds a recognised key |
| UserController.AddUserToCourse | backend/controllers/userController.js:112-148 | 422 with no call iff the course id is missing or empty or there is no caller; 410 with no call when the course does not resolve; otherwise one enrolment call for the course's uuid, as instructor iff the body's type is "instructor", on the body's userId when truthy else on the caller, and 200 iff it succeeds |
| UserController.ResolveRole | backend/controllers/userController.js:164-177 | Instructor iff the uuid is in the instructor list; Student iff it is absent from it and in the student list; not in class iff it is in neither |
| UserController.GetUserType | backend/controllers/userController.js:150-184 | 422 iff the course id is missing or empty or there is no caller; 410 iff the course does not resolve; otherwise the caller's role, with instructor precedence |
| UserController.InstructorPrecedence | backend/controllers/userController.js:165-168 | a uuid in the instructor list resolves to Instructor whatever the student list holds |
| UserController.MissingParametersRejectBeforeLookup | backend/controllers/userController.js:120-126 | with the course id or the caller missing, getUserType and addUserToCourse give their 422 whatever the course store holds (lines 120-126 and 154-160) |
| UserController.DeleteUser | backend/controllers/userController.js:186-202 | the deletion targets the userUUID query when it is truthy, else the caller's uuid; the response is 200 iff there is a target and the deletion call returns without throwing, and 410 with nothing deleted when it throws; with neither a query nor a caller there is no response |

## Left out

- Firebase authentication, `updateProfile`, `sendEmailVerification`, navigation, toasts' rendering and `console.log` in the signup page (client/src/pages/Signup/index.jsx:26-41, 79): I/O; `SignUp` ends at the decision to create the account.
- JSX rendering of the signup page: presentation.
- The User and Course model methods (`pushUserToFirebase`, `getUserById`, `getCourseById`, `addStudentCourse`, `removeLikedPost`, `getInstructorList`, `deleteUserByID`, ...): their source is not part of this model. Calls to them are recorded as `Effect` values; lookups are partial maps; the course lists a user or course holds are read from its record. No idempotence, set semantics or symmetry of associations is claimed.
- AddUser, AddUserToCourse: whether the store push or the enrolment call succeeds is a parameter (`pushSucceeds`, `enrolSucceeds`), since it is decided by the store.
- AddUserToCourse: the lookup of the body's `userId` (backend/controllers/userController.js:128-130) sits outside the try block and its failure is not handled; the model keeps the target as a reference (`ById`) and does not resolve it.
- UpdateUser, DeleteUser: the mutation and deletion calls are not awaited; the model treats them as sequential calls made before the response, and failures after a call returns, which never reach the response, are not modelled. A throw before a call returns is a parameter (`firstThrow`, `deleteCallReturns`), since the User model is not part of this model.
- DeleteUser: whether the deletion call throws before returning is a parameter (`deleteCallReturns`), because the User model is not part of this model. The only other mention of that method, in the commented-out backend/test/userTest.js:47, spells it `deleteUserById` where the controller calls `deleteUserByID`; if that spelling is the real one, the call throws a TypeError on every request and the model's `deleteCallReturns = false` case (410, nothing deleted) is the one that happens.
- Async/await and the concurrent fan-out of `Promise.all`: modelled as sequential, order-preserving evaluation with all-or-nothing failure.
- JSON/HTTP serialisation: responses are the abstract `Response` datatype; the 410 bodies (`JSON.stringify(e)`, `e.message`) are not modelled; the "User not in this class" answer is the role `NotInClass`.
- Request bodies hold string values only; JavaScript's loose `==` at backend/controllers/userController.js:135 is modelled as string equality, and non-string JSON values and their truthiness are not modelled.
- EmailValid, NameValid, LastIndexOf: strings are sequences of characters, whereas JavaScript's `length` and `lastIndexOf` count UTF-16 code units. For text with characters outside the Basic Multilingual Plane the positions differ, and so can the verdict: "\U{1F600}@.cc" passes the email check in the browser ('@' at code unit 2, '.' at 3, length 6) but the model rejects it.
- backend/routes/api/index.js (router wiring) and backend/test/userTest.js (entirely commented out): no logic to model.
