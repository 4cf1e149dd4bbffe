/** An optional value: stands for a JavaScript value that may be `null` or
    `undefined` (a ref whose `current` is not attached, an element that
    `document.querySelector` did not find, an array index past the end). */
module Optional {

  datatype Option<+T> = None | Some(value: T)
}
