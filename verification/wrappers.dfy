/** Optional values, used for the absent credential, a transcription that
    produced no text, a model call that failed, and an entry without analysis. */
module Wrappers {

  datatype Option<+T> = None | Some(value: T)
}
