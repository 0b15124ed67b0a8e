/** `ClassUtils.getClassLoader(Thread, Class)`: the loader used to load classes and
    resources, chosen from the thread's context loader, a fallback class's loader and
    ClassUtils' own loader. */
module Loaders {
  import opened Classes

  type ThreadId = nat

  /** The runtime state the selection reads: the calling thread, each thread's context
      loader (a thread that is not a key has a null one), the class `ClassUtils` itself
      and what `ClassLoader.getSystemClassLoader()` returns. */
  datatype Runtime = Runtime(
    current: ThreadId,
    contextLoaders: map<ThreadId, LoaderId>,
    self: ClassId,
    system: LoaderId)

  /** `thread.getContextClassLoader()`. */
  function ContextLoader(rt: Runtime, t: ThreadId): Option<LoaderId>
  {
    if t in rt.contextLoaders then Some(rt.contextLoaders[t]) else None
  }

  /** The choice as a single expression: the context loader of the given thread (the
      current thread when none is given) if it has one, else the loader of the fallback
      class (of `ClassUtils` when no fallback is given). */
  ghost function SelectedLoader(w: World, rt: Runtime, thread: Option<ThreadId>, fallback: Option<ClassId>): Option<LoaderId>
    requires rt.self in w && (fallback.Some? ==> fallback.value in w)
  {
    var context := ContextLoader(rt, if thread.Some? then thread.value else rt.current);
    if context.Some? then context
    else w[if fallback.Some? then fallback.value else rt.self].loader
  }

  /** `getClassLoader(thread, fallback)` as written: the system loader is fetched when
      both earlier steps find null, but its result is discarded, so the method can
      return null. */
  method GetClassLoader(w: World, rt: Runtime, thread: Option<ThreadId>, fallback: Option<ClassId>)
    returns (loader: Option<LoaderId>)
    requires rt.self in w && (fallback.Some? ==> fallback.value in w)
    ensures loader == SelectedLoader(w, rt, thread, fallback)
    ensures thread.Some? && thread.value in rt.contextLoaders ==>
      loader == Some(rt.contextLoaders[thread.value])
    ensures thread.None? && rt.current in rt.contextLoaders ==>
      loader == Some(rt.contextLoaders[rt.current])
    ensures loader.None? <==>
      ContextLoader(rt, if thread.Some? then thread.value else rt.current).None? &&
      w[if fallback.Some? then fallback.value else rt.self].loader.None?
  {
    var t := if thread.Some? then thread.value else rt.current;
    loader := ContextLoader(rt, t);
    if loader.None? {
      var scope := if fallback.Some? then fallback.value else rt.self;
      loader := w[scope].loader;
    }
    if loader.None? {
      var discarded := rt.system;
    }
  }

  /** `getClassLoader` with the system loader assigned as the last fallback, which keeps
      the documented promise that the result is never null. */
  method GetClassLoaderFixed(w: World, rt: Runtime, thread: Option<ThreadId>, fallback: Option<ClassId>)
    returns (loader: Option<LoaderId>)
    requires rt.self in w && (fallback.Some? ==> fallback.value in w)
    ensures loader.Some?
    ensures SelectedLoader(w, rt, thread, fallback).Some? ==> loader == SelectedLoader(w, rt, thread, fallback)
    ensures SelectedLoader(w, rt, thread, fallback).None? ==> loader == Some(rt.system)
  {
    var t := if thread.Some? then thread.value else rt.current;
    loader := ContextLoader(rt, t);
    if loader.None? {
      var scope := if fallback.Some? then fallback.value else rt.self;
      loader := w[scope].loader;
    }
    if loader.None? {
      loader := Some(rt.system);
    }
  }

  /** The system loader never influences the as-written choice. */
  lemma SystemLoaderIgnored(w: World, rt: Runtime, thread: Option<ThreadId>, fallback: Option<ClassId>, other: LoaderId)
    requires rt.self in w && (fallback.Some? ==> fallback.value in w)
    ensures SelectedLoader(w, rt, thread, fallback) == SelectedLoader(w, rt.(system := other), thread, fallback)
  {
  }

  /** A thread without a context loader and a fallback class defined by the bootstrap
      loader (`java.lang.String`, say) make the as-written method return null. */
  method NullLoaderCounterexample() returns (loader: Option<LoaderId>)
    ensures loader == None
  {
    var w := map[0 := ClassInfo(None, {}, None, Some("java.lang")),
                 1 := ClassInfo(Some(0), {}, None, Some("java.lang")),
                 2 := ClassInfo(Some(0), {}, Some(7), Some("at.molindo.utils.reflect"))];
    var rt := Runtime(5, map[], 2, 7);
    loader := GetClassLoader(w, rt, None, Some(1));
  }
}
