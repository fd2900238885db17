# platform-console renderer, modelled in Dafny

This project models the core of `platform-console`, a rendering backend that
lets a component framework render into an in-memory tree instead of a browser
DOM, together with the small rule by which the i18n extraction builder picks
its output file name.

- `exceptions.dfy` (module `Exceptions`): a thrown `Error` becomes a value,
  `Outcome` for calls returning `void` and `Result<T>` for calls returning a
  value. Each carries the exact message the TypeScript throws.
- `js_array.dfy` (module `JsArray`): the array built-ins the renderer relies
  on, `findIndex` with an identity predicate and `splice`, with ECMAScript's
  rules. A negative start counts back from the end; start and delete count
  are clamped.
- `console_renderer.dfy` (module `ConsoleRendering`): the node classes
  `ConsoleElement` and `ConsoleText`, and `Node`, their union. `Node` wraps a
  reference, so `==` on nodes is identity, as `===` is in the TypeScript. The
  file also holds the class `ConsoleRenderer` with every renderer call, and
  `ConsoleRendererFactory`. Child-list effects are given by two functions,
  `InsertedBefore` and `Removed`, defined as platform-console computes them, as
  a splice at the index `findIndex` reports. Lemmas then state what this
  means when the reference child is present and when it is absent. When it
  is absent the index is -1, which `splice` reads as "one from the end":
  `insertBefore` puts the new child before the last child, and `removeChild`
  deletes the last child. The model keeps that behaviour as written.
- `extract_i18n.dfy` (module `ExtractI18n`): `getI18nOutfile` and the
  resolution of the builder's `outFile` option.

Calls the backend does not support return `Fail` or `Err`. They have no
`modifies` clause, so Dafny checks that they change no node and not the
renderer's `root`. Methods on elements and on the renderer declare a frame
down to the field they touch: `parent`children` for the child operations,
`el`attributes` for attribute updates, `this`root` for root selection.
`SetValue` frames the whole text object, whose only field is `value`, and
nothing at all when given an element. Every other field of every object is
therefore unchanged by construction.

## Model

| member | source | states |
|---|---|---|
| `ConsoleRendering.ConsoleElement.constructor` | platform_console/src/console-renderer.ts:3-9 | a new element has the given name, empty attribute and property maps, no children and a null view |
| `ConsoleRendering.ConsoleText.constructor` | platform_console/src/console-renderer.ts:11-13 | a new text node holds the given value |
| `ConsoleRendering.ConsoleView.constructor` | platform_console/src/console-renderer.ts:15-17 | a view starts with no children |
| `ConsoleRendering.ConsoleRenderer.constructor` | platform_console/src/console-renderer.ts:21-26 | the renderer starts with a fresh blank element named "root" as its root |
| `ConsoleRendering.ConsoleRenderer.CreateElement` | platform_console/src/console-renderer.ts:32-34 | the namespace is ignored; the result is a fresh element with the given name, empty maps, no children and a null view |
| `ConsoleRendering.ConsoleRenderer.CreateComment` | platform_console/src/console-renderer.ts:36-38 | always throws "createComment not implemented." and changes nothing |
| `ConsoleRendering.ConsoleRenderer.CreateText` | platform_console/src/console-renderer.ts:40-42 | the result is a fresh text node holding the given value |
| `ConsoleRendering.ConsoleRenderer.AppendChild` | platform_console/src/console-renderer.ts:44-46 | the new child becomes the last child; earlier children keep their order; nothing else changes |
| `ConsoleRendering.ConsoleRenderer.InsertBefore` | platform_console/src/console-renderer.ts:48-51 | the children become `InsertedBefore(old children, newChild, refChild)`, the splice at the `findIndex` position; nothing else changes |
| `ConsoleRendering.ConsoleRenderer.RemoveChild` | platform_console/src/console-renderer.ts:53-56 | the children become `Removed(old children, oldChild)`, the one-element splice at the `findIndex` position; nothing else changes |
| `ConsoleRendering.ConsoleRenderer.SelectRootElement` | platform_console/src/console-renderer.ts:58-61 | `root` becomes a fresh blank element named by the selector; the same object is returned; `preserveContent` is ignored |
| `ConsoleRendering.ConsoleRenderer.ParentNode` | platform_console/src/console-renderer.ts:63-65 | always throws "parentNode not implemented." and changes nothing |
| `ConsoleRendering.ConsoleRenderer.NextSibling` | platform_console/src/console-renderer.ts:66-68 | always throws "nextSibling not implemented." and changes nothing |
| `ConsoleRendering.ConsoleRenderer.SetAttribute` | platform_console/src/console-renderer.ts:70-72 | the key maps to the value afterwards, except "__proto__", whose assignment reaches the prototype setter and stores nothing; other keys, properties and children are unchanged; the namespace is ignored |
| `ConsoleRendering.ConsoleRenderer.RemoveAttribute` | platform_console/src/console-renderer.ts:74-76 | the key is absent afterwards; other keys are unchanged; removing an absent key leaves the map as it was |
| `ConsoleRendering.ConsoleRenderer.AddClass` | platform_console/src/console-renderer.ts:78-80 | always throws "addClass not implemented." and changes nothing |
| `ConsoleRendering.ConsoleRenderer.RemoveClass` | platform_console/src/console-renderer.ts:81-83 | always throws "removeClass not implemented." and changes nothing |
| `ConsoleRendering.ConsoleRenderer.SetStyle` | platform_console/src/console-renderer.ts:84-86 | always throws "setStyle not implemented." and changes nothing |
| `ConsoleRendering.ConsoleRenderer.RemoveStyle` | platform_console/src/console-renderer.ts:87-89 | always throws "removeStyle not implemented." and changes nothing |
| `ConsoleRendering.ConsoleRenderer.SetProperty` | platform_console/src/console-renderer.ts:91-93 | the key maps to the value afterwards, except "__proto__", which stores no key (see "## Left out" for the null-prototype case); other properties, the attributes and the children are unchanged |
| `ConsoleRendering.ConsoleRenderer.SetValue` | platform_console/src/console-renderer.ts:95-101 | on a text node the value is replaced, so the last write wins; on an element it throws "setValue only implemented for ConsoleNode" and modifies nothing |
| `ConsoleRendering.ConsoleRenderer.Listen` | platform_console/src/console-renderer.ts:103-105 | always throws "listen not implemented." and changes nothing |
| `ConsoleRendering.ConsoleRendererFactory.constructor` | platform_console/src/console-renderer.ts:110-111 | the factory owns one fresh renderer whose root is a blank "root" element |
| `ConsoleRendering.ConsoleRendererFactory.CreateRenderer` | platform_console/src/console-renderer.ts:112-114 | every call returns the one shared `defaultRenderer`, whatever the host element and type |
| `JsArray.FindIndex` | platform_console/src/console-renderer.ts:49 | -1 exactly when the node is absent; otherwise the index of its first identity match |
| `JsArray.SpliceStart` | platform_console/src/console-renderer.ts:50 | the splice start is clamped into the array: a negative start counts back from the end (-1 is one before the end), below -length gives 0, past the end gives the length |
| `JsArray.SpliceDeleteCount` | platform_console/src/console-renderer.ts:55 | the number of elements removed never runs past the end of the array, and a delete count that fits is taken as given |
| `JsArray.Splice` | platform_console/src/console-renderer.ts:48-56 | the elements before the clamped start are kept, the items follow, then the elements after the deleted run; the length changes by items minus deleted |
| `ConsoleRendering.InsertedBefore` | platform_console/src/console-renderer.ts:48-51 | whether or not the reference child is present, the list grows by one and gains exactly one copy of the new child as a multiset |
| `ConsoleRendering.Removed` | platform_console/src/console-renderer.ts:53-56 | whether or not the child is present, a non-empty list shrinks by exactly one, an empty one stays empty, and nothing is added |
| `ConsoleRendering.InsertBeforePresent` | platform_console/src/console-renderer.ts:48-51 | with the reference child at first index i: the new child lands at i, children before i are unchanged, the reference child and later ones shift right by one |
| `ConsoleRendering.InsertBeforeAbsent` | platform_console/src/console-renderer.ts:49-50 | with the reference child absent: the new child lands just before the last child, or becomes the only child of an empty list |
| `ConsoleRendering.RemoveChildPresent` | platform_console/src/console-renderer.ts:53-56 | exactly the first identity occurrence is removed: length drops by one, the others keep their order, one copy leaves the multiset |
| `ConsoleRendering.RemoveChildAbsent` | platform_console/src/console-renderer.ts:54-55 | with the child absent, the last child is deleted; an empty list stays empty |
| `ConsoleRendering.RemoveUndoesAppend` | platform_console/src/console-renderer.ts:44-56 | removing a child just appended, which was not there before, restores the child list |
| `ConsoleRendering.RemoveUndoesInsertBefore` | platform_console/src/console-renderer.ts:48-56 | removing a child just inserted, which was not there before, restores the child list, whether the reference child was present or absent |
| `ExtractI18n.I18nOutfile` | platform_console/devkit/build_angular/src/extract-i18n/index.ts:28-41 | "xmb" gives messages.xmb; xlf, xlif, xliff, xlf2 and xliff2 give messages.xlf; anything else, an absent format included, fails with `Unsupported format "<format>"`; a success is one of those two names |
| `ExtractI18n.ResolveOutFile` | platform_console/devkit/build_angular/src/extract-i18n/index.ts:61-65 | resolution succeeds exactly when outFile is non-empty or the format is supported; on failure it is the `getI18nOutfile` error |
| `ExtractI18n.ExplicitOutFileWins` | platform_console/devkit/build_angular/src/extract-i18n/index.ts:61-65 | a non-empty outFile is used, under outputPath when that is set; the format is never consulted, so an unsupported one does not fail |
| `ExtractI18n.FallbackToFormat` | platform_console/devkit/build_angular/src/extract-i18n/index.ts:61-65 | without a non-empty outFile, a supported format resolves to its `getI18nOutfile` name, joined under outputPath when that is set; an unsupported one fails with the `getI18nOutfile` error |
| `ExtractI18n.ResolvedNameShape` | platform_console/devkit/build_angular/src/extract-i18n/index.ts:61-65 | a resolved name is a default name or the given outFile, prefixed by outputPath and '/' exactly when outputPath is non-empty |

## Left out

- `setUpRenderFlushing` (platform_console/src/console-renderer.ts:129-138) is not modelled. It subscribes to the framework zone's stability events and writes the tree to the console. That is scheduling and I/O.
- `data`, `destroyNode` and `destroy` (platform_console/src/console-renderer.ts:28-30) are not modelled. They are a never-read field, a null hook and a no-op. `ConsoleView` is kept only as the type of `view`, which no operation sets.
- `Any`: the `any` payload of properties and styles is a small datatype. It stores values and never interprets them. Floating-point numbers, objects and functions are not represented.
- ConsoleRendering.ConsoleRenderer.SetAttribute: attributes are a Dafny `map`, which has no key order. A JavaScript object lists integer-like keys in ascending order and the rest in insertion order, and the excluded console dump shows that order.
- ConsoleRendering.ConsoleRenderer.SetProperty: the same key order is lost for properties. `setProperty(el, "__proto__", null)` replaces the prototype of the property object; the model keeps no prototype, so only "no key is stored" is stated. After that null assignment the object has no prototype, and a later `setProperty(el, "__proto__", v)` does store an own "__proto__" key; the model never stores it. An object payload under "__proto__" is not representable in `Any`.
- ConsoleRendering.ConsoleElement.constructor: `name` is a `const`. In TypeScript it is a public, mutable field that no modelled code assigns.
- ConsoleRendering.ConsoleRendererFactory.CreateRenderer: `defaultRenderer` is a `const`. In TypeScript it is a public, mutable field that no modelled code assigns. "Every call returns the same renderer" rests on that.
- `ConsoleRendering.ConsoleRenderer.Listen`: the callback parameter is dropped because it is never called.
- `ConsoleRendering.ConsoleRenderer.SetStyle` and `RemoveStyle`: the `RendererStyleFlags2` argument is an `int`, and it is ignored.
- Arguments typed by TypeScript as elements, such as the parent of `appendChild`, are typed `ConsoleElement` here. Calls that violate the TypeScript types at run time are not modelled.
- `ConsoleRendering.ConsoleRendererFactory.CreateRenderer`: the `RendererType2` argument is reduced to its `id`, and it is ignored.
- `ExtractI18n.Join`: `path.join` is plain concatenation with a '/' separator. Path normalisation (`..`, duplicate or trailing separators, platform separators) is not modelled.
- The rest of `extract-i18n/index.ts` is not modelled. `execute`, `InMemoryOutputPlugin` and the webpack run are asynchronous builder and bundler plumbing.
- `platform_console/src/console.ts` is not part of this model. It holds provider tables, the module double-load guard and a pass-through sanitizer.
- `platform_console/devkit/build_angular/src/utils/webpack-browser-config.ts` is not part of this model. It assembles bundler configuration over foreign calls.
- `platform_console/src/builder/schema.d.ts`, `src/main.ts` and `src/app/` are not part of this model. They hold only type declarations, bootstrap code and decorators.
