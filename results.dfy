/** Optional values and the outcome of an operation that may throw. */
module Results {

  datatype Option<T> = None | Some(value: T)
  {
    function GetOr(default: T): T
    {
      match this
      case None => default
      case Some(v) => v
    }
  }

  /** The errors the core throws or rejects with, keyed as in its locale files. */
  datatype Error =
    | DecryptPayload          // errors.decrypt_payload
    | DecryptKeyLength        // errors.decrypt_keylength
    | WrongFinalBlockLength   // thrown by the AES decipher on a partial block
    | DiscoverLocalIp         // errors.discover_local_ip
    | SendingTimeout          // errors.sending_timeout / socket error
    | InvalidResponse         // errors.invalid_response
    | NoKeyDetected           // errors.no_key_detected
    | NoRfData                // errors.no_rf_data
    | TriedLongEnough         // "tried long enough"
    | Aborted                 // "aborted"
    | RangeError              // typed array `set` past the end
    | TypeError               // a method called on a value that lacks it
    | SaveSettingsExist(name: string)   // errors.save_settings_exist
    | SaveSettingsNoCmd(name: string)   // errors.save_settings_nocmd
    | RestoreFailed           // a malformed RcCmdRestore text

  datatype Outcome<T> = Ok(value: T) | Throw(error: Error)
}
