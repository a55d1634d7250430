# cljs.binding-test, compiled to Go: save, override and restore of a global

The namespace `cljs.binding-test` is compiled by the ClojureScript-to-Go compiler into
the Go package `binding_test`. Its two tests exercise the code that the compiler emits
for the ClojureScript forms `binding` and `with-redefs`. In the compiled Go, both forms
become the same pattern on a package-level global of the namespace
`binding-test-other-ns`:

1. copy the global into a local;
2. run a closure that first defers a call to write the local back and then assigns `2`
   to the global and asserts, panicking with a `js.Error` on failure, that the global
   reads `2`;
3. after the closure, assert that the global reads its expected value: `1` for `*foo*`,
   `10` for `bar`.

Go runs a deferred call on every exit from the closure, both on return and on panic.
So the global is restored before any panic propagates.

The model has three modules.

- `OtherNs` (`other_ns.dfy`) holds the two globals. `Namespace` is a class with fields
  `foo` (for `*foo*`) and `bar`, updated in place. `Globals` is a snapshot of both
  values, with `Get` and `Set`.
- `BindingSpec` (`binding_spec.dfy`) gives, as functions of a snapshot, what one scope,
  one test and the test runner compute. It proves that the globals come back, when
  each test passes, and that the second test does not depend on the first.
- `BindingTest` (`binding_test.dfy`) holds the tests as imperative methods on a
  `Namespace`. Each method is proved equal to its specification function.

In Clojure on the JVM, `binding` pushes thread-local frames onto a per-var binding
stack. The compiled code here has no binding stack, no release guard and no
thread-local state: both forms compile to a single local save slot and an
unconditional write-back of a shared package global, and that is what the model
captures.

## Model

| member | source | states |
|---|---|---|
| OtherNs.Set | cljs/binding_test/binding_test.go:27 | an assignment to one global makes it hold the new value and leaves the other global unchanged |
| OtherNs.Namespace.constructor | cljs/binding_test/binding_test.go:9 | the globals of the imported namespace start out holding the given values of `*foo*` and `bar` |
| OtherNs.Namespace.Read | cljs/binding_test/binding_test.go:29 | reading a global yields its current value in the namespace's state |
| OtherNs.Namespace.Write | cljs/binding_test/binding_test.go:23 | assigning a global in place changes the namespace's state exactly as `Set` does, and nothing else |
| BindingSpec.ScopeResult | cljs/binding_test/binding_test.go:21-34 | the closure with its deferred write-back leaves the rebound global holding the saved value on the normal and the panic exit alike; it never touches the other global; the inner check panics, with its message, exactly when the override differs from the value the check expects |
| BindingSpec.TestResult | cljs/binding_test/binding_test.go:18-40 | a whole test (save before the override, scope, outer check) leaves both globals exactly as it found them; it returns nil exactly when the subject held its expected value (1 for `*foo*`, 10 for `bar`) at the start, and otherwise panics with the outer assertion's message |
| BindingSpec.RunSequence | cljs/binding_test/binding_test.go:78-80 | running tests in order, stopping at the first panic, leaves the globals unchanged; it passes exactly when every test passes on its own from the same start; otherwise its panic is that of the first test that fails on its own from the start, so no outcome depends on the earlier tests |
| BindingSpec.RunnerOkIff | cljs/binding_test/binding_test.go:78-80 | Test_runner's two calls both return nil exactly when `*foo*` starts at 1 and `bar` at 10 |
| BindingSpec.RunnerPassesFromInitialValues | cljs/binding_test/binding_test.go:78-80 | from the starting values 1 and 10, Test_runner passes and leaves both globals at 1 and 10 |
| BindingSpec.WithRedefsIndependentOfBinding | cljs/binding_test/binding_test.go:79-80 | the with-redefs test run after the binding test has the same outcome and final state as when run from the original state |
| BindingTest.RunScope | cljs/binding_test/binding_test.go:21-34 | the in-place closure (write the override, check it, write back the saved value on either exit) produces the outcome and the state that `ScopeResult` gives |
| BindingTest.TestBinding | cljs/binding_test/binding_test.go:16-42 | Test_binding matches `TestResult` for `*foo*`: the globals end unchanged, and it returns nil exactly when `*foo*` was 1, else panics with "Assert failed: (= o/\*foo\* 1)" |
| BindingTest.TestWithRedefs | cljs/binding_test/binding_test.go:44-70 | Test_with_redefs matches `TestResult` for `bar`: the globals end unchanged, and it returns nil exactly when `bar` was 10, else panics with "Assert failed: (= o/bar 10)" |
| BindingTest.TestRunner | cljs/binding_test/binding_test.go:78-81 | Test_runner runs the binding test and then, unless that panicked, the with-redefs test; it matches `RunSequence` on that order, leaves the globals unchanged and passes exactly when they start at 1 and 10 |

## Left out

- Go's `testing.T` and the final `assert.True(t, true)` of Test_runner belong to the test harness. A panic is the only failure signal modelled.
- The `init` function that builds the test closures and stores them in the package variables `Test_binding` and `Test_with_redefs` is registration plumbing. Each test is a plain method.
- `cljs_core.Fn`, `cljs_core.AFn` and the `X_invoke_Arity0` dispatch are runtime code that is not part of this model. A call through them is a direct method call.
- `cljs_core.X_EQ_.Arity2IIB` is modelled as integer equality, and the globals' `float64` values as `int`. Every comparison is between a global and one of the literals 2, 1 or 10, and the restore writes back exactly the value it saved, so every outcome depends only on whether a global's value equals 2, 1 or 10. A starting value that is not an integer (1.5, NaN) behaves like any integer other than the expected one: the outer assertion fails. NaN's inequality with itself never arises, because no global is compared with itself.
- A `js.Error` is kept only as its message string, in `Panic(msg)`.
- The definitions in `binding-test-other-ns` are not part of this model. The starting values of `*foo*` (1) and `bar` (10) are constructor parameters and lemma hypotheses.
- Thread-local bindings, binding stacks, nested bindings, release guards and concurrency are not present in the compiled code. The tests run on one goroutine.
- Test_runner has exactly two calls. The model states the runner over any list of tests and fixes Test_runner's list in `RUNNER_ORDER`.
