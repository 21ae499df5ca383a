/** The response object every REST endpoint of the plugin returns
    (`CashtipprApiRes`): an error flag, a message and a list of payload items. */
module ApiResponse {

  datatype Response = Response(error: bool, errorMsg: string, data: seq<string>)

  /** A freshly constructed response: no error, empty message, no data. */
  const Fresh: Response := Response(false, "", [])

  /** `setError`: marks the response as failed with the given message and
      leaves its data alone. */
  function SetError(res: Response, msg: string): (r: Response)
    ensures r.error
    ensures r.errorMsg == msg
    ensures r.data == res.data
  {
    res.(error := true, errorMsg := msg)
  }

  /** Setting an error twice keeps only the last message: the first call
      leaves no trace. */
  lemma SetErrorLastWins(res: Response, first: string, second: string)
    ensures SetError(SetError(res, first), second) == SetError(res, second)
  {
  }
}
