/** The settings the core reads, with their default values. The API endpoint,
    key and model have no default and must be supplied. */
module Config {

  datatype Settings = Settings(
    openaiApiUrl: string,
    openaiApiKey: string,
    mmlmModel: string,
    openaiTimeout: int := 30,
    maxFileSize: int := 50 * 1024 * 1024,
    imageDpi: int := 300,
    imageFormat: string := "PNG",
    maxConcurrentRequests: int := 10,
    batchSize: int := 5)

  /** Settings given only the three required values take the documented defaults. */
  lemma DefaultSettings(url: string, key: string, model: string)
    ensures var s := Settings(url, key, model);
      && s.openaiTimeout == 30
      && s.maxFileSize == 52428800
      && s.imageDpi == 300
      && s.imageFormat == "PNG"
      && s.maxConcurrentRequests == 10
  {
  }
}
