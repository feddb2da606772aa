/** The validation-layer message hook: the callback that filters by severity
    and the create-info that subscribes it. */
module DebugMessenger {
  import opened Vulkan

  /** What `debugCallback` does with one message: the value it returns to the
      driver, and whether it wrote the message to the error stream. */
  datatype CallbackReply = CallbackReply(result: Bool32, emitted: bool)

  /** `debugCallback`: messages of severity WARNING or higher, compared as
      numbers, go to the error stream; the driver is never told to abort. */
  function DebugCallback(messageSeverity: Flags, messageType: Flags, message: string): (reply: CallbackReply)
    ensures reply.result == VkFalse
    ensures reply.emitted <==> messageSeverity >= SeverityWarning
  {
    CallbackReply(VkFalse, messageSeverity >= SeverityWarning)
  }

  /** Whether a messenger created from `info` forwards messages of `severity`. */
  predicate Subscribed(info: MessengerCreateInfo, severity: Flags) {
    info.messageSeverity & severity != 0
  }

  /** The create-info `populateDebugMessengerCreateInfo` produces: every
      severity except INFO, the three message types, and `debugCallback`. */
  function DebugMessengerInfo(): (info: MessengerCreateInfo)
    ensures info.sType == StructureTypeDebugUtilsMessengerCreateInfo && info.flags == 0
    ensures Subscribed(info, SeverityVerbose) && Subscribed(info, SeverityWarning) && Subscribed(info, SeverityError)
    ensures !Subscribed(info, SeverityInfo)
    ensures info.messageSeverity & !(SeverityVerbose | SeverityInfo | SeverityWarning | SeverityError) == 0
    ensures info.messageType == TypeGeneral | TypeValidation | TypePerformance
    ensures info.userCallback == DebugCallbackFn
  {
    MessengerCreateInfo(
      StructureTypeDebugUtilsMessengerCreateInfo,
      0,
      SeverityVerbose | SeverityWarning | SeverityError,
      TypeGeneral | TypeValidation | TypePerformance,
      DebugCallbackFn)
  }

  /** `populateDebugMessengerCreateInfo`: reset the structure, then fill it field by field. */
  method PopulateDebugMessengerCreateInfo() returns (createInfo: MessengerCreateInfo)
    ensures createInfo == DebugMessengerInfo()
  {
    createInfo := ZeroMessengerCreateInfo;
    createInfo := createInfo.(sType := StructureTypeDebugUtilsMessengerCreateInfo);
    createInfo := createInfo.(messageSeverity := SeverityVerbose | SeverityWarning | SeverityError);
    createInfo := createInfo.(messageType := TypeGeneral | TypeValidation | TypePerformance);
    createInfo := createInfo.(userCallback := DebugCallbackFn);
  }

  /** Of the four standard severities, the installed hook writes out exactly
      WARNING and ERROR: VERBOSE reaches the callback and is dropped there,
      INFO is never delivered. */
  lemma ReportedSeverities(messageType: Flags, message: string)
    ensures var info := DebugMessengerInfo();
      forall severity | severity in [SeverityVerbose, SeverityInfo, SeverityWarning, SeverityError] ::
        (Subscribed(info, severity) && DebugCallback(severity, messageType, message).emitted)
        <==> (severity == SeverityWarning || severity == SeverityError)
    ensures Subscribed(DebugMessengerInfo(), SeverityVerbose)
    ensures !DebugCallback(SeverityVerbose, messageType, message).emitted
    ensures DebugCallback(SeverityError, messageType, message).emitted
  {
  }
}
