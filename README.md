# ClassUtils, modelled in Dafny

A model of the decision logic in `at.molindo.utils.reflect.ClassUtils`, a static helper
class over Java reflection. Classes, class loaders and threads are opaque identities.
A `World` maps each loaded class to what `Class` exposes about it: its superclass, its
interfaces, its defining loader and its package name. `Option`'s `None` stands for
Java's `null`. Thrown exceptions are `Err` values of a `Result`.

The model covers five pieces of the class:

- **Assignability** (`Assignability`). `isAssignable` and `isAssignableToAll` are
  early-exit loops over a set of candidate classes. Each is proved equal to a quantifier:
  "some candidate" and "every candidate" is a supertype of `cls`. The asymmetry on the
  empty set is kept as in the source. `Class.isAssignableFrom` is the reflexive,
  transitive closure of "direct supertype" (superclass or implemented interface).
- **Class-loader selection** (`Loaders`). `getClassLoader(Thread, Class)` picks the
  thread's context loader first. The current thread is used when no thread is given.
  If that loader is null, it picks the loader of the fallback class, or of `ClassUtils`
  itself when no fallback is given. The method then fetches the system loader but
  discards it. So, contrary to its documented "never null", it can return null (see
  Findings).
- **Package resource paths** (`ResourcePaths`). `getPackageResourcePath` takes the
  package name, replaces every `.` with `/`, and appends `/` and the resource name.
- **Superclass iteration** (`ClassHierarchy`). `hierarchy(cls)` returns an iterator whose
  only state is a cursor. `next()` yields the cursor and moves it to its superclass.
  The iterator is exhausted when the cursor is null. `next()` on an exhausted iterator
  throws `NoSuchElementException`. `remove()` always throws
  `UnsupportedOperationException`.
- **The class world** (`Classes`). A well-formed world gives each direct supertype a
  smaller identity than its subclass; this is the order in which they are loaded. This
  keeps the hierarchy acyclic, and the superclass chain of `c` holds at most `c + 1`
  classes.

Inputs that Java reads from the running VM are passed in as parameters:
- the current thread and each thread's context loader (`Runtime`);
- the loader of `ClassUtils` itself;
- the result of `ClassLoader.getSystemClassLoader()`;
- the superclass, interfaces, loader and package of each class (`World`).

## Model

| member | source | states |
|---|---|---|
| Classes.Superclass | src/main/java/at/molindo/utils/reflect/ClassUtils.java:236 | `getSuperclass()` of a loaded class is a loaded class with a smaller identity, or null |
| Classes.AssignableTransitive | src/main/java/at/molindo/utils/reflect/ClassUtils.java:66 | the `isAssignableFrom` relation the checks rely on is transitive |
| Classes.AssignableFromOrdered | src/main/java/at/molindo/utils/reflect/ClassUtils.java:66 | a supertype never has a larger identity than its subtype, and two distinct classes are never each other's supertype |
| Assignability.IsAssignable | src/main/java/at/molindo/utils/reflect/ClassUtils.java:57-71 | false for a null class or an empty set; otherwise true exactly when some class in the set is assignable from `cls` |
| Assignability.IsAssignableToAll | src/main/java/at/molindo/utils/reflect/ClassUtils.java:73-87 | false for a null class; true for a non-null class and an empty set; otherwise true exactly when every class in the set is assignable from `cls` |
| Assignability.AllImpliesAny | src/main/java/at/molindo/utils/reflect/ClassUtils.java:61-87 | on a non-empty set "assignable to all" implies "assignable to one"; on the empty set "any" is false and "all" holds exactly for a non-null class |
| Assignability.AncestorInSet | src/main/java/at/molindo/utils/reflect/ClassUtils.java:61-71 | a class is assignable to any set that contains it or one of the classes its hierarchy iterator yields |
| Assignability.SubtypeInherits | src/main/java/at/molindo/utils/reflect/ClassUtils.java:61-87 | whatever set a class is assignable to (one member or all), its subtypes are assignable to as well |
| Loaders.GetClassLoader | src/main/java/at/molindo/utils/reflect/ClassUtils.java:144-170 | the given thread's (or else the current thread's) context loader when it has one; otherwise the loader of the fallback class, or of `ClassUtils` when there is no fallback; null exactly when both are null; the system loader plays no part |
| Loaders.GetClassLoaderFixed | src/main/java/at/molindo/utils/reflect/ClassUtils.java:153-169 | never null: the as-written choice when that is non-null, else the system loader |
| Loaders.SystemLoaderIgnored | src/main/java/at/molindo/utils/reflect/ClassUtils.java:165-169 | changing the system loader never changes the as-written choice |
| Loaders.NullLoaderCounterexample | src/main/java/at/molindo/utils/reflect/ClassUtils.java:153-169 | with no context loader and a bootstrap-loaded fallback class, the as-written method returns null |
| ResourcePaths.ReplaceDots | src/main/java/at/molindo/utils/reflect/ClassUtils.java:200 | `replace('.', '/')` keeps the length, turns each dot into a slash and leaves every other character |
| ResourcePaths.RestoreReplaced | src/main/java/at/molindo/utils/reflect/ClassUtils.java:200 | for a name without slashes, turning slashes back into dots gives the package name back |
| ResourcePaths.PackageResourcePath | src/main/java/at/molindo/utils/reflect/ClassUtils.java:196-201 | the path has length package + 1 + resource, its package part is the package with dots turned into slashes and holds no dot, then comes `/`, then the resource unchanged |
| ResourcePaths.PackagePathsDistinct | src/main/java/at/molindo/utils/reflect/ClassUtils.java:196-201 | two packages give the same path for a resource only if they are the same package |
| ResourcePaths.ResourcePathOf | src/main/java/at/molindo/utils/reflect/ClassUtils.java:199-201 | `NullPointerException` exactly when the scope class or its package is null; otherwise exactly `PackageResourcePath` of the package name and the resource, where a null resource is appended as the text `null` |
| ResourcePaths.ExamplePath | src/main/java/at/molindo/utils/reflect/ClassUtils.java:200 | package `a.b` and resource `c.txt` give `a/b/c.txt` |
| ClassHierarchy.Chain | src/main/java/at/molindo/utils/reflect/ClassUtils.java:203-247 | the sequence the iterator yields for `c` is non-empty, starts with `c` and holds only loaded classes |
| ClassHierarchy.ChainSteps | src/main/java/at/molindo/utils/reflect/ClassUtils.java:235-236 | each yielded class after the first is the superclass of the one before it, and the last one has no superclass |
| ClassHierarchy.ChainUnique | src/main/java/at/molindo/utils/reflect/ClassUtils.java:225-237 | any sequence that starts at `c`, follows superclasses and stops at a class without one is the yielded sequence |
| ClassHierarchy.ChainDecreasing | src/main/java/at/molindo/utils/reflect/ClassUtils.java:225-237 | no class is yielded twice, and iteration stops after at most `c + 1` classes |
| ClassHierarchy.ChainAssignable | src/main/java/at/molindo/utils/reflect/ClassUtils.java:203-247 | every yielded class is assignable from the class the iteration started at |
| ClassHierarchy.ClassHierarchyIterator.constructor | src/main/java/at/molindo/utils/reflect/ClassUtils.java:217-222 | the cursor starts at the given non-null class, so everything in its superclass chain remains to be yielded |
| ClassHierarchy.ClassHierarchyIterator.Empty | src/main/java/at/molindo/utils/reflect/ClassUtils.java:209-211 | the iterator for a null class has nothing to yield |
| ClassHierarchy.ClassHierarchyIterator.HasNext | src/main/java/at/molindo/utils/reflect/ClassUtils.java:224-227 | true exactly when the cursor is non-null, that is when something remains to be yielded |
| ClassHierarchy.ClassHierarchyIterator.Next | src/main/java/at/molindo/utils/reflect/ClassUtils.java:229-238 | yields the first remaining class and drops it from what remains, moving the cursor to its superclass; when exhausted, throws `NoSuchElementException` and leaves the cursor unchanged |
| ClassHierarchy.ClassHierarchyIterator.Remove | src/main/java/at/molindo/utils/reflect/ClassUtils.java:240-243 | always throws `UnsupportedOperationException` and changes nothing |
| ClassHierarchy.Hierarchy | src/main/java/at/molindo/utils/reflect/ClassUtils.java:208-247 | for null, an iterator with nothing to yield; otherwise one that yields `cls` first and then its superclass chain |

## Findings

| source | as written | input that shows it | evidently intended | confidence | as-written member | corrected member |
|---|---|---|---|---|---|---|
| src/main/java/at/molindo/utils/reflect/ClassUtils.java:165-166 | `ClassLoader.getSystemClassLoader()` is called but its result is not assigned to `loader`, so the method returns null although line 153 documents "never null" | a thread whose context loader is null and a fallback class defined by the bootstrap loader (e.g. `String.class`) | `loader = ClassLoader.getSystemClassLoader();`, so the system loader is returned | high, not executed | Loaders.NullLoaderCounterexample | Loaders.GetClassLoaderFixed |

The model keeps the as-written `Loaders.GetClassLoader` as the description of the
source's behaviour. `Loaders.GetClassLoaderFixed` is the corrected selection.

## Left out

- `forName` overloads (lines 89-130): they load classes through `Class.forName`, which runs platform class loading and static initialisers. Only the loader they pass on, `getClassLoader`, is modelled.
- `getClassLoader()`, `getClassLoader(Class)` and `getClassLoader(Thread)` (lines 132-142): they only pass null for the missing arguments. This is what `None` means in `Loaders.GetClassLoader`.
- `getTypeArgument`, `getTypeArguments` and `toClass` (lines 40-55): they delegate to `GenericTypeResolver` and `ArrayUtils`, which are not part of this model.
- `getClasspathResource`, `getClasspathResourceAsStream` and `getClasspathResources` (lines 176-194): these do classpath and jar I/O through a `ClassLoader`. Only the path they compute is modelled.
- `Thread.currentThread()`, `getContextClassLoader()` and `getSystemClassLoader()` read VM state. They are inputs in `Loaders.Runtime`.
- `Classes.AssignableFrom` leaves out what `isAssignableFrom` does for primitive types, array covariance, and `Object` being a supertype of every interface. Supertypes are only superclasses and declared interfaces.
- `Assignability.IsAssignable` and `Assignability.IsAssignableToAll` take sets without null elements. A null element in the Java set makes the loop throw `NullPointerException` when it reaches it. That outcome depends on iteration order and is not modelled.
- `Assignability.IsAssignable` and `Assignability.IsAssignableToAll` take a set, never a null one. In Java, a null set with a non-null class throws `NullPointerException` at `classes.isEmpty()` (line 62) or in the for-each (line 81); the model does not express that outcome.
- The order in which a `java.util.Set` is iterated is a non-deterministic choice here. The results do not depend on it.
- `IteratorUtils.empty()` is not part of this model. The exhausted iterator that `hierarchy(null)` returns is modelled by `ClassHierarchyIterator.Empty`. It is assumed to report no next element, to throw `NoSuchElementException` from `next()` and to throw `UnsupportedOperationException` from `remove()`; the last two are the behaviour of `ClassHierarchyIterator`, not facts read from `IteratorUtils`.
- `ClassHierarchyIterator`'s constructor throws `NullPointerException` for null. `hierarchy` never passes null, so the constructor takes a non-null class.
- `getSystemClassLoader()` is taken to return a loader. Its `SecurityException` and `IllegalStateException` cases are not modelled.
- SetMapTest.java tests a `SetMap` class that is not part of this model.
