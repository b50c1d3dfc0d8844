/** `App`: the validated timeout and the `SyncService` it hands to every arrival. */
module Application {
  import opened Native
  import opened Wrappers
  import opened Timeout
  import opened Sync

  class App {
    /** `timeout: Duration`, built by `Duration::from_secs`, so whole seconds. */
    const timeout: u64
    const syncService: SyncService

    constructor (timeout: u64, syncService: SyncService)
      ensures this.timeout == timeout && this.syncService == syncService
    {
      this.timeout := timeout;
      this.syncService := syncService;
    }

    /**
     * `App::new` after the configuration has produced `configured`: it is
     * validated, and on success the app gets a fresh, empty service.
     */
    static method New(configured: u64) returns (r: Result<App, ConfigError>)
      ensures r.Err? <==> !InRange(configured)
      ensures r.Err? ==> ValidateTimeout(configured) == Fail(r.error)
      ensures r.Ok? ==>
        && fresh(r.value) && fresh(r.value.syncService)
        && r.value.timeout == configured && InRange(r.value.timeout)
        && r.value.syncService.Valid() && r.value.syncService.waitPoints == map[]
    {
      var checked := ValidateTimeout(configured);
      if checked.Fail? {
        return Err(checked.error);
      }
      var service := new SyncService();
      var app := new App(configured, service);
      r := Ok(app);
    }
  }
}
